/**
 * The Player classes of src/player/player.py, player_new.py, player_latest.py,
 * player_new_fixed.py and game_with_textures.py, and the rectangle players of
 * platformer/game_new.py, platformer/game.py and game.py, as one class whose
 * methods update its fields in place. Each method is specified by the
 * corresponding function of PlayerModel or Animation on `View()`.
 */
module Players {
  import opened Constants
  import opened Geometry
  import opened PlayerModel
  import opened Animation

  /**
   * The constructor fallback of src/player/player_latest.py: every animation
   * list that loaded no frame gets the default image, so no list is empty.
   */
  method FillEmptyLists(loaded: seq<int>) returns (counts: seq<int>)
    requires forall i :: 0 <= i < |loaded| ==> loaded[i] >= 0
    ensures |counts| == |loaded|
    ensures forall i :: 0 <= i < |counts| ==> counts[i] >= 1
    ensures forall i :: 0 <= i < |counts| ==> (loaded[i] == 0 <==> counts[i] != loaded[i])
    ensures forall i :: 0 <= i < |counts| && loaded[i] == 0 ==> counts[i] == 1
  {
    counts := [];
    var i := 0;
    while i < |loaded|
      invariant 0 <= i <= |loaded| && |counts| == i
      invariant forall j :: 0 <= j < i ==> counts[j] >= 1
      invariant forall j :: 0 <= j < i ==> (loaded[j] == 0 <==> counts[j] != loaded[j])
      invariant forall j :: 0 <= j < i && loaded[j] == 0 ==> counts[j] == 1
    {
      if loaded[i] == 0 {
        counts := counts + [1];
      } else {
        counts := counts + [loaded[i]];
      }
      i := i + 1;
    }
  }

  /**
   * Frame counts of a src/player/player_latest.py player from the number of
   * frames loaded for `right`, `left`, `jump`, `attack_right`, `attack_left`
   * and `dead`; a failure of the whole loading block gives every list the
   * single default image.
   */
  method LatestFrames(loaded: seq<int>, failed: bool) returns (f: Frames)
    requires |loaded| == 6 && forall i :: 0 <= i < 6 ==> loaded[i] >= 0
    ensures f.right >= 1 && f.left >= 1 && f.jump >= 1 && f.attackRight >= 1 && f.attackLeft >= 1 && f.dead >= 1
    ensures failed ==> f == Frames(1, 1, 0, 0, 1, 1, 1, 1)
    ensures !failed && loaded[1] >= loaded[0] ==> FramesOk(f, Latest)
  {
    if failed {
      f := Frames(1, 1, 0, 0, 1, 1, 1, 1);
    } else {
      var c := FillEmptyLists(loaded);
      f := Frames(c[0], c[1], 0, 0, c[2], c[3], c[4], c[5]);
    }
  }

  class Player {
    var x: int
    var y: real
    const width: int
    const height: int
    var velX: int
    var velY: real
    const speed: int
    const jumpPower: real
    const gravity: real
    var onGround: bool
    var jumping: bool
    var facingRight: bool
    var isAttacking: bool
    var isDead: bool
    var score: int
    /** Frame counters, timers and the current image. */
    var anim: Anim
    const frames: Frames

    function View(): PlayerState
      reads this
    {
      PlayerState(x, y, width, height, velX, velY, speed, jumpPower, gravity,
                  onGround, jumping, facingRight, isAttacking, isDead, score, anim, frames)
    }

    function Bounds(): (b: Box)
      reads this
      ensures b == View().Bounds()
    {
      Box(x, y, width, height)
    }

    /** src/player/player.py `__init__`. */
    constructor Basic(x0: int, y0: real)
      ensures View() == BasicSpawn(x0, y0)
    {
      x, y, width, height := x0, y0, PLAYER_WIDTH, PLAYER_HEIGHT;
      velX, velY := 0, 0.0;
      speed, jumpPower, gravity := PLAYER_SPEED, PLAYER_JUMP_POWER, PLAYER_GRAVITY;
      onGround, jumping, facingRight := true, false, true;
      isAttacking, isDead, score := false, false, 0;
      anim, frames := InitialAnim, NoFrames;
    }

    /** `__init__` of the animated players, given how many frames each list holds. */
    constructor Animated(x0: int, y0: real, f: Frames)
      ensures View() == AnimatedSpawn(x0, y0, f)
    {
      x, y, width, height := x0, y0, PLAYER_WIDTH, PLAYER_HEIGHT;
      velX, velY := 0, 0.0;
      speed, jumpPower, gravity := PLAYER_SPEED, PLAYER_JUMP_POWER, PLAYER_GRAVITY;
      onGround, jumping, facingRight := false, false, true;
      isAttacking, isDead, score := false, false, 0;
      anim, frames := InitialAnim, f;
    }

    /** The 40 x 60 `Player` of platformer/game_new.py, platformer/game.py and game.py. */
    constructor Plain(x0: int, y0: real)
      ensures View() == PlainSpawn(x0, y0)
    {
      x, y, width, height := x0, y0, 40, 60;
      velX, velY := 0, 0.0;
      speed, jumpPower, gravity := 5, -15.0, 0.8;
      onGround, jumping, facingRight := false, false, true;
      isAttacking, isDead, score := false, false, 0;
      anim, frames := InitialAnim, NoFrames;
    }

    /** `move`: gravity, integration, the x clamp and, under `rule.floor`, the floor snap. */
    method Move(rule: MoveRule)
      modifies this
      ensures View() == Moved(old(View()), rule)
    {
      if rule.deadSkips && isDead {
        return;
      }
      velY := velY + gravity;
      x := x + velX;
      y := y + velY;
      if x < 0 {
        x := 0;
      }
      if x > rule.xLimit - width {
        x := rule.xLimit - width;
      }
      if rule.floor && y > (HEIGHT - height) as real {
        y := (HEIGHT - height) as real;
        velY := 0.0;
        onGround := true;
        jumping := false;
      }
    }

    /** The key-state handler of the frame step. */
    method Steer(left: bool, right: bool, tracksFacing: bool)
      modifies this
      ensures View() == Steered(old(View()), left, right, tracksFacing)
    {
      velX := 0;
      if left {
        velX := -speed;
        if tracksFacing {
          facingRight := false;
        }
      }
      if right {
        velX := speed;
        if tracksFacing {
          facingRight := true;
        }
      }
    }

    /** The jump key handler. */
    method Jump()
      modifies this
      ensures View() == Jumped(old(View()))
    {
      if !jumping {
        velY := jumpPower;
        jumping := true;
        onGround := false;
      }
    }

    /** src/player/player.py `start_attack`. */
    method StartAttackAlways()
      modifies this
      ensures View() == AttackForced(old(View()))
    {
      isAttacking := true;
    }

    /** The guarded `start_attack`. */
    method StartAttack()
      modifies this
      ensures View() == AttackStarted(old(View()))
    {
      if !isAttacking && !isDead {
        isAttacking := true;
        anim := anim.(attackFrame := 0, attackTimer := 0.0);
      }
    }

    /** `start_death`. */
    method StartDeath()
      modifies this
      ensures View() == DeathStarted(old(View()))
    {
      if !isDead {
        isDead := true;
        anim := anim.(deathFrame := 0, deathTimer := 0.0);
      }
    }

    /** The death branch of `update_animation`. */
    method AdvanceDeath(step: real)
      modifies this
      ensures View() == DeathTick(old(View()), step)
    {
      anim := anim.(deathTimer := anim.deathTimer + step);
      if anim.deathTimer >= 1.0 {
        anim := anim.(deathTimer := 0.0);
        if anim.deathFrame < frames.dead - 1 {
          anim := anim.(deathFrame := anim.deathFrame + 1);
        }
      }
      anim := anim.(image := Image(Dead, anim.deathFrame, false));
    }

    /** The attack branch of `update_animation`. */
    method AdvanceAttack(step: real, clamp: bool)
      modifies this
      ensures View() == AttackTick(old(View()), step, clamp)
    {
      anim := anim.(attackTimer := anim.attackTimer + step);
      if anim.attackTimer >= 1.0 {
        anim := anim.(attackTimer := 0.0, attackFrame := anim.attackFrame + 1);
        if anim.attackFrame >= frames.attackRight {
          anim := anim.(attackFrame := 0);
          isAttacking := false;
        }
      }
      var sprite := if facingRight then AttackRight else AttackLeft;
      var idx := anim.attackFrame;
      if clamp && idx > frames.Count(sprite) - 1 {
        idx := frames.Count(sprite) - 1;
      }
      anim := anim.(image := Image(sprite, idx, false));
    }

    /** The looping jump branch of player_new.py, player_latest.py and game_with_textures.py. */
    method AdvanceJumpCycle(v: Variant, wrap: bool)
      requires JumpCount(frames, v) > 0
      modifies this
      ensures View() == JumpCycle(old(View()), v, wrap)
    {
      var n := JumpCount(frames, v);
      var frame := Trunc(anim.animationTimer * 4.0) % n;
      if v == Latest {
        anim := anim.(image := Image(Sprite.Jump, frame, !facingRight));
      } else {
        anim := anim.(image := Image(if facingRight then JumpRight else JumpLeft, frame, false));
      }
      anim := anim.(animationTimer := anim.animationTimer + ANIMATION_SPEED);
      if wrap && anim.animationTimer >= n as real / 4.0 {
        anim := anim.(animationTimer := 0.0);
      }
    }

    /** The jump branch of player_new_fixed.py. */
    method ShowJumpByVelocity()
      requires jumpPower != 0.0
      modifies this
      ensures View() == JumpByVelocity(old(View()))
    {
      var frame := JumpFrameFixed(velY, jumpPower);
      if frame > frames.jump - 1 {
        frame := frames.jump - 1;
      }
      if frame < 0 {
        frame := 0;
      }
      anim := anim.(image := Image(Sprite.Jump, frame, !facingRight));
    }

    /** The walk branch of `update_animation`. */
    method AdvanceWalk(modulus: int)
      requires modulus > 0
      modifies this
      ensures View() == WalkTick(old(View()), modulus)
    {
      var sprite := if facingRight then Right else Left;
      if velX != 0 {
        anim := anim.(animationTimer := anim.animationTimer + ANIMATION_SPEED);
        if anim.animationTimer >= 1.0 {
          anim := anim.(animationTimer := 0.0, animationFrame := (anim.animationFrame + 1) % modulus);
        }
        anim := anim.(image := Image(sprite, anim.animationFrame, false));
      } else {
        anim := anim.(animationFrame := 0, image := Image(sprite, 0, false));
      }
    }

    /** `update_animation` of the given file. */
    method UpdateAnimationOf(v: Variant)
      requires CanAnimate(View(), v)
      modifies this
      ensures View() == UpdateAnimation(old(View()), v)
    {
      if isDead {
        AdvanceDeath(DeathStep(v));
      } else if isAttacking {
        AdvanceAttack(AttackStep(v), v != Textured);
      } else if jumping {
        if v == Fixed {
          ShowJumpByVelocity();
        } else {
          AdvanceJumpCycle(v, v != Textured);
        }
      } else {
        AdvanceWalk(WalkModulus(frames, v));
      }
    }
  }

  /** The loaded frame counts of player_new.py, player_new_fixed.py (all jump frames present) and game_with_textures.py satisfy the index requirements of their `update_animation`. */
  lemma LoadedFramesOk()
    ensures FramesOk(Frames(8, 8, 9, 9, 0, 4, 4, 6), New)
    ensures FramesOk(Frames(8, 8, 9, 9, 0, 4, 4, 6), Textured)
    ensures FramesOk(Frames(8, 8, 0, 0, 9, 4, 4, 6), Fixed)
  {
  }
}
