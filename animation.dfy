/**
 * The per-frame animation state machine (`update_animation`) of the animated
 * players: src/player/player_new.py, src/player/player_latest.py,
 * src/player/player_new_fixed.py and the Player of game_with_textures.py.
 * Priority is death, then attack, then jump, then walk; only the counters,
 * timers, the current image and `is_attacking` change.
 */
module Animation {
  import opened Constants
  import opened PlayerModel

  /** Which file's `update_animation` is meant. */
  datatype Variant = New | Latest | Fixed | Textured

  /** Python's `int()` on a float: truncation toward zero. */
  function Trunc(r: real): (t: int)
    ensures 0.0 <= r ==> 0 <= t && t as real <= r < t as real + 1.0
    ensures r < 0.0 ==> t <= 0 && t as real - 1.0 < r <= t as real
  {
    if r >= 0.0 then r.Floor else -((-r).Floor)
  }

  /** Timer increments per update: `animation_speed` (0.2) everywhere, twice that for attacks, and game_with_textures.py's own death and attack speeds. */
  function DeathStep(v: Variant): real { if v == Textured then DEATH_ANIMATION_SPEED else ANIMATION_SPEED }
  function AttackStep(v: Variant): real { if v == Textured then ATTACK_ANIMATION_SPEED else ANIMATION_SPEED * 2.0 }

  /** The list whose length the looping jump frame is taken modulo. */
  function JumpCount(f: Frames, v: Variant): int { if v == Latest then f.jump else f.jumpRight }

  /** The walk frame wraps modulo `len(right)`, except in game_with_textures.py, which hard-codes 8. */
  function WalkModulus(f: Frames, v: Variant): int { if v == Textured then 8 else f.right }

  /** What the arithmetic of `update_animation` needs to be defined: the divisors are non-zero. */
  predicate CanAnimate(p: PlayerState, v: Variant)
  {
    WalkModulus(p.frames, v) > 0
    && (v != Fixed ==> JumpCount(p.frames, v) > 0)
    && (v == Fixed ==> p.jumpPower != 0.0)
  }

  /** The death branch: the frame advances once the timer reaches 1 and stops at the last frame. */
  function DeathTick(p: PlayerState, step: real): (r: PlayerState)
    ensures r == p.(anim := r.anim)
    ensures r.anim == p.anim.(deathFrame := r.anim.deathFrame, deathTimer := r.anim.deathTimer, image := r.anim.image)
    ensures p.anim.deathFrame <= r.anim.deathFrame <= p.anim.deathFrame + 1
    ensures r.anim.deathFrame > p.anim.deathFrame ==> r.anim.deathFrame <= p.frames.dead - 1
    ensures r.anim.image == Image(Dead, r.anim.deathFrame, false)
  {
    var t := p.anim.deathTimer + step;
    var f := p.anim.deathFrame;
    var f1 := if t >= 1.0 && f < p.frames.dead - 1 then f + 1 else f;
    p.(anim := p.anim.(deathFrame := f1, deathTimer := if t >= 1.0 then 0.0 else t, image := Image(Dead, f1, false)))
  }

  /**
   * The attack branch: once the timer reaches 1 the frame advances; reaching the
   * number of attack frames resets it to 0 and ends the attack. `clamp` selects
   * the `min(attack_frame, len - 1)` image index of the src/player variants.
   */
  function AttackTick(p: PlayerState, step: real, clamp: bool): (r: PlayerState)
    ensures r == p.(anim := r.anim, isAttacking := r.isAttacking)
    ensures r.anim == p.anim.(attackFrame := r.anim.attackFrame, attackTimer := r.anim.attackTimer, image := r.anim.image)
    ensures r.isAttacking ==> p.isAttacking
    ensures 0 <= p.anim.attackFrame < p.frames.attackRight ==> 0 <= r.anim.attackFrame < p.frames.attackRight
    ensures p.isAttacking && !r.isAttacking ==> r.anim.attackFrame == 0 && p.anim.attackFrame + 1 >= p.frames.attackRight
  {
    var t := p.anim.attackTimer + step;
    var f := if t >= 1.0 then p.anim.attackFrame + 1 else p.anim.attackFrame;
    var ended := t >= 1.0 && f >= p.frames.attackRight;
    var f1 := if ended then 0 else f;
    var sprite := if p.facingRight then AttackRight else AttackLeft;
    var idx := if clamp then (if f1 < p.frames.Count(sprite) - 1 then f1 else p.frames.Count(sprite) - 1) else f1;
    p.(isAttacking := p.isAttacking && !ended,
       anim := p.anim.(attackFrame := f1, attackTimer := if t >= 1.0 then 0.0 else t, image := Image(sprite, idx, false)))
  }

  /**
   * The looping jump branch: the frame is `int(timer * 4) % count`, taken before
   * the timer advances. player_new.py and game_with_textures.py pick the
   * `jump_right`/`jump_left` list, player_latest.py mirrors its single `jump`
   * list when facing left; with `wrap`, the timer returns to 0 at `count / 4`.
   */
  function JumpCycle(p: PlayerState, v: Variant, wrap: bool): (r: PlayerState)
    requires JumpCount(p.frames, v) > 0
    ensures r == p.(anim := r.anim)
    ensures r.anim == p.anim.(animationTimer := r.anim.animationTimer, image := r.anim.image)
    ensures 0 <= r.anim.image.index < JumpCount(p.frames, v)
    ensures wrap && 0.0 <= p.anim.animationTimer ==> 0.0 <= r.anim.animationTimer < JumpCount(p.frames, v) as real / 4.0
  {
    var n := JumpCount(p.frames, v);
    var frame := Trunc(p.anim.animationTimer * 4.0) % n;
    var image := if v == Latest then Image(Jump, frame, !p.facingRight)
                 else Image(if p.facingRight then JumpRight else JumpLeft, frame, false);
    var t := p.anim.animationTimer + ANIMATION_SPEED;
    p.(anim := p.anim.(animationTimer := if wrap && t >= n as real / 4.0 then 0.0 else t, image := image))
  }

  /** While the wrapped timer stays below `count / 4`, the `%` in the jump frame never takes effect. */
  lemma JumpFrameNeedsNoWrap(timer: real, count: int)
    requires count > 0 && 0.0 <= timer < count as real / 4.0
    ensures Trunc(timer * 4.0) % count == Trunc(timer * 4.0)
  {
    var t := Trunc(timer * 4.0);
    assert timer * 4.0 < count as real;
    assert 0 <= t < count;
  }

  /**
   * player_new_fixed.py: the jump frame follows `vel_y`, frames 0 to 3 while
   * rising and 4 to 8 while falling.
   */
  function JumpFrameFixed(velY: real, jumpPower: real): (frame: int)
    requires jumpPower != 0.0
    ensures velY < 0.0 ==> 0 <= frame <= 3
    ensures velY < 0.0 && velY <= jumpPower && jumpPower < 0.0 ==> frame == 3
    ensures velY >= 0.0 && jumpPower < 0.0 ==> 4 <= frame <= 8
    ensures velY == 0.0 ==> frame == 4
    ensures velY >= -2.0 * jumpPower && jumpPower < 0.0 ==> frame == 8
  {
    if velY < 0.0 then
      var a := if velY < 0.0 then -velY else velY;
      var b := if jumpPower < 0.0 then -jumpPower else jumpPower;
      var progress := a / b;
      QuotientBounds(a, b);
      var f := Trunc(progress * 4.0);
      if f < 3 then f else 3
    else
      var q := velY / (jumpPower * -2.0);
      QuotientBounds(velY, jumpPower * -2.0);
      var progress := if q < 1.0 then q else 1.0;
      var f := 4 + Trunc(progress * 5.0);
      if f < 8 then f else 8
  }

  lemma QuotientBounds(a: real, b: real)
    requires b != 0.0
    ensures b > 0.0 && a >= 0.0 ==> a / b >= 0.0
    ensures b > 0.0 && a >= b ==> a / b >= 1.0
  {
    if b > 0.0 && a >= b {
      var q := a / b;
      assert q * b == a;
    }
  }

  /** The player_new_fixed.py jump branch: the frame is clamped into the list and mirrored when facing left; no timer moves. */
  function JumpByVelocity(p: PlayerState): (r: PlayerState)
    requires p.jumpPower != 0.0
    ensures r == p.(anim := r.anim)
    ensures r.anim == p.anim.(image := r.anim.image)
    ensures r.anim.image.sprite == Jump && r.anim.image.mirrored == !p.facingRight
    ensures p.frames.jump >= 1 ==> 0 <= r.anim.image.index < p.frames.jump
    ensures p.frames.jump >= 9 && p.jumpPower < 0.0 ==> r.anim.image.index == JumpFrameFixed(p.velY, p.jumpPower)
  {
    var f := JumpFrameFixed(p.velY, p.jumpPower);
    var m := if f < p.frames.jump - 1 then f else p.frames.jump - 1;
    var idx := if m > 0 then m else 0;
    p.(anim := p.anim.(image := Image(Jump, idx, !p.facingRight)))
  }

  /** The walk branch: moving advances the frame modulo `modulus` each time the timer reaches 1; standing resets it to 0. */
  function WalkTick(p: PlayerState, modulus: int): (r: PlayerState)
    requires modulus > 0
    ensures r == p.(anim := r.anim)
    ensures r.anim == p.anim.(animationFrame := r.anim.animationFrame, animationTimer := r.anim.animationTimer, image := r.anim.image)
    ensures r.anim.image == Image(if p.facingRight then Right else Left, r.anim.animationFrame, false)
    ensures p.velX == 0 ==> r.anim.animationFrame == 0 && r.anim.animationTimer == p.anim.animationTimer
    ensures 0 <= p.anim.animationFrame < modulus ==> 0 <= r.anim.animationFrame < modulus
  {
    if p.velX != 0 then
      var t := p.anim.animationTimer + ANIMATION_SPEED;
      var f := if t >= 1.0 then (p.anim.animationFrame + 1) % modulus else p.anim.animationFrame;
      p.(anim := p.anim.(animationFrame := f, animationTimer := if t >= 1.0 then 0.0 else t,
                         image := Image(if p.facingRight then Right else Left, f, false)))
    else
      p.(anim := p.anim.(animationFrame := 0, image := Image(if p.facingRight then Right else Left, 0, false)))
  }

  /** One call of `update_animation`. */
  function UpdateAnimation(p: PlayerState, v: Variant): (r: PlayerState)
    requires CanAnimate(p, v)
    ensures r == p.(anim := r.anim, isAttacking := r.isAttacking)
    ensures r.isAttacking ==> p.isAttacking
    ensures CanAnimate(r, v)
    ensures p.isDead ==> r == DeathTick(p, DeathStep(v))
    ensures !p.isDead && p.isAttacking ==> r == AttackTick(p, AttackStep(v), v != Textured)
  {
    if p.isDead then DeathTick(p, DeathStep(v))
    else if p.isAttacking then AttackTick(p, AttackStep(v), v != Textured)
    else if p.jumping then
      match v
      case New => JumpCycle(p, v, true)
      case Latest => JumpCycle(p, v, true)
      case Textured => JumpCycle(p, v, false)
      case Fixed => JumpByVelocity(p)
    else WalkTick(p, WalkModulus(p.frames, v))
  }

  function UpdateAnimationN(p: PlayerState, v: Variant, n: nat): (r: PlayerState)
    requires CanAnimate(p, v)
    ensures CanAnimate(r, v)
    ensures r == p.(anim := r.anim, isAttacking := r.isAttacking)
    decreases n
  {
    if n == 0 then p else UpdateAnimationN(UpdateAnimation(p, v), v, n - 1)
  }

  // ---------------------------------------------------------------------------
  // Index safety.

  /** Frame counts under which every list `update_animation` indexes is long enough. */
  predicate FramesOk(f: Frames, v: Variant)
  {
    f.right >= 1 && f.dead >= 1 && f.attackRight >= 1 && f.attackLeft >= 1
    && f.left >= WalkModulus(f, v) && f.right >= WalkModulus(f, v)
    && (v == Latest || v == Fixed ==> f.jump >= 1)
    && (v == New || v == Textured ==> f.jumpRight >= 1 && f.jumpLeft >= f.jumpRight)
    && (v == Textured ==> f.attackLeft >= f.attackRight)
  }

  /** The counters a correct animation state keeps in range. */
  predicate AnimInv(p: PlayerState, v: Variant)
  {
    FramesOk(p.frames, v) && (v == Fixed ==> p.jumpPower != 0.0)
    && 0 <= p.anim.deathFrame < p.frames.dead
    && 0 <= p.anim.attackFrame < p.frames.attackRight
    && 0 <= p.anim.animationFrame < WalkModulus(p.frames, v)
    && 0.0 <= p.anim.animationTimer && 0.0 <= p.anim.attackTimer && 0.0 <= p.anim.deathTimer
  }

  /** The image `update_animation` selects exists in its list. */
  predicate ImageOk(p: PlayerState)
  {
    0 <= p.anim.image.index < p.frames.Count(p.anim.image.sprite)
  }

  lemma AnimInvCanAnimate(p: PlayerState, v: Variant)
    requires AnimInv(p, v)
    ensures CanAnimate(p, v)
  {
  }

  /** Every update keeps the counters in range and selects an existing image. */
  lemma UpdateKeepsIndicesInRange(p: PlayerState, v: Variant)
    requires AnimInv(p, v)
    ensures CanAnimate(p, v)
    ensures AnimInv(UpdateAnimation(p, v), v) && ImageOk(UpdateAnimation(p, v))
  {
    var r := UpdateAnimation(p, v);
    if !p.isDead && !p.isAttacking && p.jumping && v != Fixed {
      var t := p.anim.animationTimer + ANIMATION_SPEED;
      assert r.anim.animationTimer >= 0.0;
    }
  }

  /** The state a fresh animated player starts from satisfies the invariant. */
  lemma SpawnAnimInv(x: int, y: real, f: Frames, v: Variant)
    requires FramesOk(f, v)
    ensures AnimInv(AnimatedSpawn(x, y, f), v) && ImageOk(AnimatedSpawn(x, y, f))
  {
  }

  /** The triggers and the physics step leave the animation state alone, except for the attack and death counters they reset. */
  lemma TriggersKeepAnimInv(p: PlayerState, v: Variant, rule: MoveRule, left: bool, right: bool, tracks: bool)
    requires AnimInv(p, v)
    ensures AnimInv(AttackStarted(p), v) && AnimInv(DeathStarted(p), v) && AnimInv(AttackForced(p), v)
    ensures AnimInv(Moved(p, rule), v) && AnimInv(Steered(p, left, right, tracks), v) && AnimInv(Jumped(p), v)
  {
  }

  // ---------------------------------------------------------------------------
  // Death freezes.

  /** Once dead, the death frame only grows, never passes the last frame, and the pose freezes there. */
  lemma {:induction false} DeathFrameMonotone(p: PlayerState, v: Variant, n: nat)
    requires CanAnimate(p, v) && p.isDead && 0 <= p.anim.deathFrame <= p.frames.dead - 1
    ensures var r := UpdateAnimationN(p, v, n);
      p.anim.deathFrame <= r.anim.deathFrame <= p.frames.dead - 1 && r.isDead && !r.isAttacking == !p.isAttacking
      && r.anim.attackFrame == p.anim.attackFrame && r.anim.animationFrame == p.anim.animationFrame
    ensures p.anim.deathFrame == p.frames.dead - 1 ==> UpdateAnimationN(p, v, n).anim.deathFrame == p.frames.dead - 1
    decreases n
  {
    if n > 0 {
      DeathFrameMonotone(UpdateAnimation(p, v), v, n - 1);
    }
  }

  // ---------------------------------------------------------------------------
  // An attack ends.

  /** Updates per attack frame: the attack timer needs three steps of 0.4, or seven of 0.15, to reach 1. */
  function StepsPerFrame(v: Variant): (k: nat)
    ensures (k - 1) as real * AttackStep(v) < 1.0 <= k as real * AttackStep(v)
  {
    if v == Textured then 7 else 3
  }

  lemma {:induction false} UpdateAnimationNSplit(p: PlayerState, v: Variant, a: nat, b: nat)
    requires CanAnimate(p, v)
    ensures UpdateAnimationN(p, v, a + b) == UpdateAnimationN(UpdateAnimationN(p, v, a), v, b)
    decreases a
  {
    if a > 0 {
      UpdateAnimationNSplit(UpdateAnimation(p, v), v, a - 1, b);
    }
  }

  /** Within one attack frame the timer counts up by the attack step while the frame and the attack stay. */
  lemma {:induction false} AttackTimerRuns(p: PlayerState, v: Variant, i: nat)
    requires CanAnimate(p, v) && !p.isDead && p.isAttacking
    requires i < StepsPerFrame(v) && p.anim.attackTimer == i as real * AttackStep(v)
    ensures var r := UpdateAnimationN(p, v, StepsPerFrame(v) - 1 - i);
      r.isAttacking && !r.isDead && r.anim.attackFrame == p.anim.attackFrame
      && r.anim.attackTimer == (StepsPerFrame(v) - 1) as real * AttackStep(v)
    decreases StepsPerFrame(v) - i
  {
    if i < StepsPerFrame(v) - 1 {
      var q := UpdateAnimation(p, v);
      assert (i + 1) as real * AttackStep(v) < 1.0;
      assert q.anim.attackTimer == (i + 1) as real * AttackStep(v);
      AttackTimerRuns(q, v, i + 1);
    }
  }

  /**
   * An attack started with `frames` frames left on a zero timer ends after
   * exactly `StepsPerFrame * frames` updates, unless the player dies.
   */
  lemma {:induction false} AttackEnds(p: PlayerState, v: Variant, left: nat)
    requires CanAnimate(p, v) && !p.isDead && p.isAttacking && p.anim.attackTimer == 0.0
    requires left >= 1 && p.anim.attackFrame == p.frames.attackRight - left && 0 <= p.anim.attackFrame
    ensures UpdateAnimationN(p, v, StepsPerFrame(v) * left - 1).isAttacking
    ensures !UpdateAnimationN(p, v, StepsPerFrame(v) * left).isAttacking
    ensures UpdateAnimationN(p, v, StepsPerFrame(v) * left).anim.attackFrame == 0
    decreases left
  {
    var k := StepsPerFrame(v);
    AttackTimerRuns(p, v, 0);
    var q := UpdateAnimationN(p, v, k - 1);
    var q1 := UpdateAnimation(q, v);
    UpdateAnimationNSplit(p, v, k - 1, 1);
    assert UpdateAnimationN(q, v, 1) == q1;
    assert UpdateAnimationN(p, v, k) == q1;
    if left == 1 {
      assert !q1.isAttacking && q1.anim.attackFrame == 0;
    } else {
      assert q1.isAttacking && q1.anim.attackFrame == p.anim.attackFrame + 1 && q1.anim.attackTimer == 0.0;
      AttackEnds(q1, v, left - 1);
      UpdateAnimationNSplit(p, v, k, k * (left - 1) - 1);
      UpdateAnimationNSplit(p, v, k, k * (left - 1));
      assert k * left - 1 == k + (k * (left - 1) - 1);
    }
  }

  /** A fresh attack of a player with 4 attack frames lasts 12 updates (28 in game_with_textures.py). */
  lemma FreshAttackDuration(p: PlayerState, v: Variant)
    requires CanAnimate(p, v) && !p.isDead && !p.isAttacking && p.frames.attackRight == 4
    ensures var q := AttackStarted(p);
      UpdateAnimationN(q, v, 4 * StepsPerFrame(v) - 1).isAttacking && !UpdateAnimationN(q, v, 4 * StepsPerFrame(v)).isAttacking
  {
    AttackEnds(AttackStarted(p), v, 4);
    assert StepsPerFrame(v) * 4 == 4 * StepsPerFrame(v);
  }
}
