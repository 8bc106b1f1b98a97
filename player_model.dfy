/**
 * The player as a value: the fields every Player class of the game keeps
 * (src/player/player.py and its successors, game_with_textures.py, platformer/game_new.py,
 * platformer/game.py, game.py), the physics step, horizontal input, the jump
 * guard and the guarded attack and death triggers.
 */
module PlayerModel {
  import opened Constants
  import opened Geometry

  /** The animation lists a player draws from. */
  datatype Sprite = Right | Left | JumpRight | JumpLeft | Jump | AttackRight | AttackLeft | Dead

  /** The current image: which list, which index in it, and whether it is drawn mirrored. */
  datatype Image = Image(sprite: Sprite, index: int, mirrored: bool)

  /** How many frames each animation list holds. */
  datatype Frames = Frames(right: int, left: int, jumpRight: int, jumpLeft: int, jump: int,
                           attackRight: int, attackLeft: int, dead: int)
  {
    function Count(s: Sprite): int
    {
      match s
      case Right => right
      case Left => left
      case JumpRight => jumpRight
      case JumpLeft => jumpLeft
      case Jump => jump
      case AttackRight => attackRight
      case AttackLeft => attackLeft
      case Dead => dead
    }
  }

  /** Frame counters and timers of the per-frame animation state machine. */
  datatype Anim = Anim(animationFrame: int, animationTimer: real,
                       attackFrame: int, attackTimer: real,
                       deathFrame: int, deathTimer: real,
                       image: Image)

  const InitialAnim := Anim(0, 0.0, 0, 0.0, 0, 0.0, Image(Right, 0, false))

  datatype PlayerState = PlayerState(
    x: int, y: real, width: int, height: int,
    velX: int, velY: real,
    speed: int, jumpPower: real, gravity: real,
    onGround: bool, jumping: bool, facingRight: bool,
    isAttacking: bool, isDead: bool, score: int,
    anim: Anim, frames: Frames)
  {
    function Bounds(): Box { Box(x, y, width, height) }
  }

  // ---------------------------------------------------------------------------
  // Construction.

  /** Frame counts of a player whose animations are not modelled (the time-based animation of src/player/player.py, the plain rectangles of the platformer scripts). */
  const NoFrames := Frames(0, 0, 0, 0, 0, 0, 0, 0)

  /** src/player/player.py: 60 x 80, standing (`on_ground` true), facing right, not attacking, score 0. */
  function BasicSpawn(x: int, y: real): (p: PlayerState)
    ensures p.onGround && !p.jumping && p.facingRight && !p.isAttacking && !p.isDead
    ensures p.score == 0 && p.velX == 0 && p.velY == 0.0 && p.x == x && p.y == y
    ensures p.width == PLAYER_WIDTH && p.height == PLAYER_HEIGHT && p.jumpPower < 0.0 < p.gravity
  {
    PlayerState(x, y, PLAYER_WIDTH, PLAYER_HEIGHT, 0, 0.0, PLAYER_SPEED, PLAYER_JUMP_POWER, PLAYER_GRAVITY,
                true, false, true, false, false, 0, InitialAnim, NoFrames)
  }

  /** The animated 60 x 80 players (player_new.py, player_latest.py, player_new_fixed.py, game_with_textures.py): airborne at start, showing `right[0]`. */
  function AnimatedSpawn(x: int, y: real, frames: Frames): (p: PlayerState)
    ensures !p.onGround && !p.jumping && p.facingRight && !p.isAttacking && !p.isDead
    ensures p.score == 0 && p.velX == 0 && p.velY == 0.0 && p.x == x && p.y == y
    ensures p.anim == InitialAnim && p.frames == frames
    ensures p.width == PLAYER_WIDTH && p.height == PLAYER_HEIGHT && p.jumpPower < 0.0 < p.gravity
  {
    PlayerState(x, y, PLAYER_WIDTH, PLAYER_HEIGHT, 0, 0.0, PLAYER_SPEED, PLAYER_JUMP_POWER, PLAYER_GRAVITY,
                false, false, true, false, false, 0, InitialAnim, frames)
  }

  /** The 40 x 60 rectangle player of platformer/game_new.py, platformer/game.py and game.py. */
  function PlainSpawn(x: int, y: real): (p: PlayerState)
    ensures !p.onGround && !p.jumping && p.facingRight && !p.isAttacking && !p.isDead
    ensures p.score == 0 && p.velX == 0 && p.velY == 0.0 && p.x == x && p.y == y
    ensures p.width == 40 && p.height == 60 && p.speed == 5 && p.jumpPower == -15.0 && p.gravity == 0.8
  {
    PlayerState(x, y, 40, 60, 0, 0.0, 5, -15.0, 0.8, false, false, true, false, false, 0, InitialAnim, NoFrames)
  }

  // ---------------------------------------------------------------------------
  // Physics step.

  /**
   * What distinguishes the `move` methods of the variants: the x bound (level or
   * screen width), whether there is a floor at `HEIGHT - height`, and whether a
   * dead player is left where it is.
   */
  datatype MoveRule = MoveRule(xLimit: int, floor: bool, deadSkips: bool)

  /** src/player/player.py. */
  const LevelNoFloor := MoveRule(LEVEL_WIDTH, false, false)
  /** player_new.py, player_latest.py, player_new_fixed.py, platformer/game_new.py, platformer/game.py. */
  const LevelWithFloor := MoveRule(LEVEL_WIDTH, true, false)
  /** game_with_textures.py. */
  const ScreenFloorDeadStill := MoveRule(WIDTH, true, true)
  /** game.py. */
  const ScreenWithFloor := MoveRule(WIDTH, true, false)

  function FloorY(p: PlayerState): real { (HEIGHT - p.height) as real }

  predicate Frozen(p: PlayerState, rule: MoveRule) { rule.deadSkips && p.isDead }

  /**
   * `Player.move`: gravity is added to `vel_y` first, then both coordinates are
   * integrated (y with the new `vel_y`), x is clamped and, where there is a
   * floor, a player below it is put back on it.
   */
  function Moved(p: PlayerState, rule: MoveRule): (r: PlayerState)
    ensures Frozen(p, rule) ==> r == p
    ensures r == p.(x := r.x, y := r.y, velY := r.velY, onGround := r.onGround, jumping := r.jumping)
    ensures !Frozen(p, rule) && 0 <= p.width <= rule.xLimit ==> 0 <= r.x <= rule.xLimit - p.width
    ensures !Frozen(p, rule) && 0 <= p.x + p.velX <= rule.xLimit - p.width ==> r.x == p.x + p.velX
    ensures !Frozen(p, rule) && p.x + p.velX < 0 <= rule.xLimit - p.width ==> r.x == 0
    ensures !Frozen(p, rule) && p.x + p.velX > rule.xLimit - p.width >= 0 ==> r.x == rule.xLimit - p.width
    ensures !Frozen(p, rule) && !rule.floor
      ==> r.velY == p.velY + p.gravity && r.y == p.y + r.velY && r.onGround == p.onGround && r.jumping == p.jumping
    ensures !Frozen(p, rule) && rule.floor ==> r.y <= FloorY(p)
    ensures !Frozen(p, rule) && rule.floor ==>
      (r.velY == p.velY + p.gravity && r.y == p.y + r.velY && r.onGround == p.onGround && r.jumping == p.jumping)
      || (r.y == FloorY(p) < p.y + p.velY + p.gravity && r.velY == 0.0 && r.onGround && !r.jumping)
  {
    if Frozen(p, rule) then p
    else
      var vy := p.velY + p.gravity;
      var x1 := p.x + p.velX;
      var y1 := p.y + vy;
      var x2 := if x1 < 0 then 0 else x1;
      var x3 := if x2 > rule.xLimit - p.width then rule.xLimit - p.width else x2;
      if rule.floor && y1 > FloorY(p) then
        p.(x := x3, y := FloorY(p), velY := 0.0, onGround := true, jumping := false)
      else
        p.(x := x3, y := y1, velY := vy)
  }

  function MovedN(p: PlayerState, rule: MoveRule, n: nat): PlayerState
    decreases n
  {
    if n == 0 then p else MovedN(Moved(p, rule), rule, n - 1)
  }

  /** A player resting on the floor stays there, `on_ground`, frame after frame. */
  lemma {:induction false} RestsOnFloor(p: PlayerState, rule: MoveRule, n: nat)
    requires rule.floor && !Frozen(p, rule) && p.gravity > 0.0
    requires p.onGround && !p.jumping && p.y == FloorY(p) && p.velY == 0.0
    ensures var r := MovedN(p, rule, n); r.onGround && !r.jumping && r.y == FloorY(p) && r.velY == 0.0
    decreases n
  {
    if n > 0 {
      RestsOnFloor(Moved(p, rule), rule, n - 1);
    }
  }

  /**
   * Under a floor, a player at or above it that is not rising is standing on the
   * floor after any `n` frames for which `n * gravity` exceeds the drop.
   */
  lemma {:induction false} FallsToFloor(p: PlayerState, rule: MoveRule, n: nat)
    requires rule.floor && !Frozen(p, rule) && p.gravity > 0.0
    requires p.velY >= 0.0 && p.y <= FloorY(p)
    requires n >= 1 && n as real * p.gravity > FloorY(p) - p.y
    ensures MovedN(p, rule, n).onGround && MovedN(p, rule, n).y == FloorY(p)
    decreases n
  {
    var p1 := Moved(p, rule);
    if p1.onGround && p1.y == FloorY(p) && p1.velY == 0.0 && !p1.jumping {
      RestsOnFloor(p1, rule, n - 1);
    } else {
      assert p1.y == p.y + p.velY + p.gravity && p1.velY == p.velY + p.gravity;
      assert p.y + p.gravity <= p1.y <= FloorY(p);
      assert n as real * p.gravity > 1.0 * p.gravity;
      assert n != 1;
      assert (n - 1) as real * p.gravity == n as real * p.gravity - p.gravity;
      FallsToFloor(p1, rule, n - 1);
    }
  }

  // ---------------------------------------------------------------------------
  // Input handling shared by the frame steps.

  /**
   * Horizontal keys: `vel_x` is reset, then left and right are applied in that
   * order, so right wins when both are held. `tracksFacing` is false for game.py,
   * whose player has no `facing_right`.
   */
  function Steered(p: PlayerState, left: bool, right: bool, tracksFacing: bool): (r: PlayerState)
    ensures r == p.(velX := r.velX, facingRight := r.facingRight)
    ensures r.velX == (if right then p.speed else if left then -p.speed else 0)
    ensures tracksFacing && (left || right) ==> r.facingRight == right
    ensures !(tracksFacing && (left || right)) ==> r.facingRight == p.facingRight
  {
    var q := p.(velX := 0);
    var q1 := if left then q.(velX := -p.speed, facingRight := if tracksFacing then false else q.facingRight) else q;
    if right then q1.(velX := p.speed, facingRight := if tracksFacing then true else q1.facingRight) else q1
  }

  /** The space-bar handler: a jump is accepted only when not already jumping. */
  function Jumped(p: PlayerState): (r: PlayerState)
    ensures r.jumping
    ensures p.jumping ==> r == p
    ensures !p.jumping ==> r == p.(velY := p.jumpPower, jumping := true, onGround := false)
  {
    if p.jumping then p else p.(velY := p.jumpPower, jumping := true, onGround := false)
  }

  /** Pressing jump again during the same jump changes nothing. */
  lemma JumpIdempotent(p: PlayerState)
    ensures Jumped(Jumped(p)) == Jumped(p)
  {
  }

  /** src/player/player.py `start_attack`: unconditional. */
  function AttackForced(p: PlayerState): (r: PlayerState)
    ensures r.isAttacking && r == p.(isAttacking := true)
  {
    p.(isAttacking := true)
  }

  /** The guarded `start_attack` of the other variants: a no-op while attacking or dead, otherwise it restarts the attack counters. */
  function AttackStarted(p: PlayerState): (r: PlayerState)
    ensures p.isAttacking || p.isDead ==> r == p
    ensures !p.isAttacking && !p.isDead ==> r == p.(isAttacking := true, anim := p.anim.(attackFrame := 0, attackTimer := 0.0))
  {
    if !p.isAttacking && !p.isDead then p.(isAttacking := true, anim := p.anim.(attackFrame := 0, attackTimer := 0.0)) else p
  }

  /** A second `start_attack` during an attack cannot restart its animation. */
  lemma AttackStartIdempotent(p: PlayerState)
    ensures AttackStarted(AttackStarted(p)) == AttackStarted(p)
    ensures AttackStarted(p).isAttacking <==> !p.isDead || p.isAttacking
  {
  }

  /** `start_death`: a no-op once dead, otherwise it starts the death animation from its first frame. */
  function DeathStarted(p: PlayerState): (r: PlayerState)
    ensures r.isDead
    ensures p.isDead ==> r == p
    ensures !p.isDead ==> r == p.(isDead := true, anim := p.anim.(deathFrame := 0, deathTimer := 0.0))
  {
    if !p.isDead then p.(isDead := true, anim := p.anim.(deathFrame := 0, deathTimer := 0.0)) else p
  }

  /** The death animation is never restarted: a second `start_death` changes nothing. */
  lemma DeathStartIdempotent(p: PlayerState)
    ensures DeathStarted(DeathStarted(p)) == DeathStarted(p)
  {
  }
}
