/**
 * game_with_textures.py: a one-screen level run by a module-level loop over
 * global `player`, `enemies` and `game_state`. A left click slashes the
 * enemies in reach; touching a live enemy while not attacking starts the
 * death animation (DYING), and the game is over once the last death frame
 * shows.
 */
module TexturedGame {
  import opened Constants
  import opened Geometry
  import opened PlayerModel
  import opened Animation
  import opened Players
  import opened Enemies
  import opened Landing
  import opened EnemyContacts
  import opened Levels
  import opened Rounds

  /** The frame counts the player loads: 8 walk frames each way, 9 jump frames each way, 4 attack frames each way, 6 death frames. */
  const TexturedFrames := Frames(8, 8, 9, 9, 0, 4, 4, 6)

  /** Facing tracked, screen-wide clamp with floor and a frozen dead player, `on_ground` reset, patrol before contacts, death on touch. */
  const Config := StepConfig(true, ScreenFloorDeadStill, true, Before(Patrolled), DieOnTouch)

  /** The globals before the loop starts. */
  function Start(): World
  {
    World(AnimatedSpawn(WIDTH / 2, (HEIGHT - PLAYER_HEIGHT) as real, TexturedFrames),
          SpawnsAt(TexturedSpots, SrcEnemy, AllHorizontal(|TexturedSpots|)), PlatformsOf(TexturedPlatforms, PLATFORM_HEIGHT),
          0, Playing, true)
  }

  /** What every frame keeps: counters in range, and the player is dead exactly when the round is no longer PLAYING. */
  predicate Inv(w: World)
  {
    AnimInv(w.player, Textured) && w.state != Menu && (w.player.isDead <==> w.state != Playing)
  }

  /** A left click while PLAYING. */
  predicate Slashing(w: World, inp: Input)
  {
    w.state == Playing && inp.click.Some? && inp.click.value.button == 1
  }

  /** The click handler: the guarded `start_attack`, then the hit test over every enemy, whether or not the attack started. */
  function Slashed(w: World, inp: Input): World
  {
    if Slashing(w, inp) then
      var o := Contacts(SlashInRange, AttackStarted(w.player), w.enemies);
      w.(player := o.player, enemies := o.enemies)
    else w
  }

  /** A slashing click's world. */
  lemma SlashingClick(w: World, inp: Input)
    requires Slashing(w, inp)
    ensures var o := Contacts(SlashInRange, AttackStarted(w.player), w.enemies);
      Slashed(w, inp) == w.(player := o.player, enemies := o.enemies)
  {
  }

  /** A click slashes exactly the live enemies in reach of the attacking player and changes nothing else but the score. */
  lemma SlashKills(w: World, inp: Input)
    ensures var r := Slashed(w, inp);
      (!Slashing(w, inp) ==> r == w)
      && (Slashing(w, inp) ==> r.player == AttackStarted(w.player).(score := r.player.score))
      && (Slashing(w, inp) ==> |r.enemies| == |w.enemies| && forall k :: 0 <= k < |w.enemies| ==>
           r.enemies[k] == w.enemies[k].(alive := w.enemies[k].alive && !InSlashRange(w.player, w.enemies[k])))
      && r.state == w.state && r.platforms == w.platforms && r.running == w.running
  {
    if Slashing(w, inp) {
      SlashKillsInRange(AttackStarted(w.player), w.enemies);
    }
  }

  /** The event loop: a quit clears `running` and handling goes on; the click; the jump key, accepted in PLAYING when not jumping. */
  function AfterEvents(w: World, inp: Input): World
  {
    JumpKeyed(Slashed(Quitted(w, inp), inp), inp)
  }

  /** The jump key, accepted in PLAYING when not jumping. */
  function JumpKeyed(w: World, inp: Input): World
  {
    if w.state == Playing && inp.jumpKey then w.(player := Jumped(w.player)) else w
  }

  /** The movement block: it runs only in PLAYING with a living player, and a contact makes the round DYING. */
  function AfterPhysics(w: World, inp: Input): (r: World)
    ensures !(w.state == Playing && !w.player.isDead) ==> r == w
    ensures r.platforms == w.platforms && r.running == w.running && |r.enemies| == |w.enemies|
  {
    if w.state == Playing && !w.player.isDead then
      var o := Physics(Config, inp, w.player, w.enemies, w.platforms);
      w.(player := o.player, enemies := o.enemies, state := if o.hit then Dying else w.state)
    else w
  }

  /** The movement block while PLAYING with a living player, given the world after the physics step and whether it hit. */
  lemma PlayingPhysics(w: World, inp: Input, v: World, hit: bool)
    requires w.state == Playing && !w.player.isDead
    requires var o := Physics(Config, inp, w.player, w.enemies, w.platforms);
      v == w.(player := o.player, enemies := o.enemies) && hit == o.hit
    ensures AfterPhysics(w, inp) == v.(state := if hit then Dying else Playing)
  {
  }

  /** `player.draw` runs `update_animation`; then DYING turns into GAME_OVER once the last death frame shows. */
  function AfterDraw(w: World): World
    requires CanAnimate(w.player, Textured)
  {
    var p := UpdateAnimation(w.player, Textured);
    if w.state == Dying && p.anim.deathFrame == p.frames.dead - 1 then w.(player := p, state := GameOver)
    else w.(player := p)
  }

  /** Keys, `move` and the platform loop leave the animation state and the flags alone. */
  lemma LandedKeepsAnimInv(inp: Input, p: PlayerState, plats: seq<Box>)
    requires AnimInv(p, Textured)
    ensures var q := Landed(Config, inp, p, plats);
      AnimInv(q, Textured) && q.isDead == p.isDead && q.isAttacking == p.isAttacking
  {
    TriggersKeepAnimInv(p, Textured, Config.rule, inp.left, inp.right, true);
    TriggersKeepAnimInv(Steered(p, inp.left, inp.right, true), Textured, Config.rule, inp.left, inp.right, true);
  }

  lemma EventsKeepInv(w: World, inp: Input)
    requires Inv(w)
    ensures Inv(AfterEvents(w, inp))
  {
    SlashKills(Quitted(w, inp), inp);
    TriggersKeepAnimInv(w.player, Textured, Config.rule, inp.left, inp.right, true);
    TriggersKeepAnimInv(AttackStarted(w.player), Textured, Config.rule, inp.left, inp.right, true);
  }

  lemma PhysicsKeepsInv(w: World, inp: Input)
    requires Inv(w)
    ensures Inv(AfterPhysics(w, inp))
  {
    if w.state == Playing && !w.player.isDead {
      var q := Landed(Config, inp, w.player, w.platforms);
      LandedKeepsAnimInv(inp, w.player, w.platforms);
      DieOnTouchIff(q, MoveAll(Patrolled, w.enemies));
      TriggersKeepAnimInv(q, Textured, Config.rule, inp.left, inp.right, true);
    }
  }

  /** Events and movement keep the frame invariant. */
  lemma EventsAndPhysicsKeepInv(w: World, inp: Input)
    requires Inv(w)
    ensures Inv(AfterPhysics(AfterEvents(w, inp), inp))
  {
    EventsKeepInv(w, inp);
    PhysicsKeepsInv(AfterEvents(w, inp), inp);
  }

  /** Drawing keeps the frame invariant and selects an existing image. */
  lemma DrawKeepsInv(w: World)
    requires Inv(w)
    ensures CanAnimate(w.player, Textured) && Inv(AfterDraw(w)) && ImageOk(AfterDraw(w).player)
    ensures Bounty(AfterDraw(w)) == Bounty(w)
  {
    UpdateKeepsIndicesInRange(w.player, Textured);
  }

  /** One pass of the `while running` loop; every image it selects exists. */
  function AfterFrame(w: World, inp: Input): (r: World)
    requires Inv(w)
    ensures Inv(r) && ImageOk(r.player)
  {
    var v := AfterPhysics(AfterEvents(w, inp), inp);
    EventsAndPhysicsKeepInv(w, inp);
    DrawKeepsInv(v);
    AfterDraw(v)
  }

  /** The loop, over a finite sequence of frame inputs; it stops once `running` is cleared. */
  function Run(w: World, inputs: seq<Input>): (r: World)
    requires Inv(w)
    ensures Inv(r)
    decreases |inputs|
  {
    if inputs == [] || !w.running then w else Run(AfterFrame(w, inputs[0]), inputs[1..])
  }

  /** The starting globals satisfy the invariant. */
  lemma StartInv()
    ensures Inv(Start()) && Bounty(Start()) == 200
  {
    LoadedFramesOk();
    SpawnAnimInv(WIDTH / 2, (HEIGHT - PLAYER_HEIGHT) as real, TexturedFrames, Textured);
    SpawnsAllAlive(TexturedSpots, SrcEnemy, AllHorizontal(|TexturedSpots|));
  }

  /**
   * The movement block ends the round exactly when the player, alive and not
   * attacking, overlaps a live enemy after the enemies moved; the death starts
   * from its first frame, and an attacking player is never hurt.
   */
  lemma ContactStartsDying(w: World, inp: Input)
    requires w.state == Playing && !w.player.isDead
    ensures var q := Landed(Config, inp, w.player, w.platforms); var es := MoveAll(Patrolled, w.enemies);
      var r := AfterPhysics(w, inp);
      (r.state == Dying <==> !w.player.isAttacking && exists k :: 0 <= k < |es| && es[k].alive && Overlaps(q.Bounds(), es[k].Bounds()))
      && (r.state != Dying ==> r.state == Playing && !r.player.isDead)
      && (r.state == Dying ==> r.player.isDead && r.player.anim.deathFrame == 0)
  {
    var q := Landed(Config, inp, w.player, w.platforms);
    DieOnTouchIff(q, MoveAll(Patrolled, w.enemies));
  }

  /** DYING lasts until the last death frame shows, and then the round is GAME_OVER for good. */
  lemma DyingEndsAtLastFrame(w: World, inp: Input)
    requires Inv(w) && w.state != Playing
    ensures var r := AfterFrame(w, inp);
      r.player.isDead && w.player.anim.deathFrame <= r.player.anim.deathFrame <= r.player.frames.dead - 1
      && (w.state == GameOver ==> r.state == GameOver)
      && (w.state == Dying ==> (r.state == GameOver <==> r.player.anim.deathFrame == r.player.frames.dead - 1))
  {
    var v := AfterPhysics(AfterEvents(w, inp), inp);
    assert v.player == w.player && v.state == w.state;
    DeathFrameMonotone(w.player, Textured, 1);
  }

  lemma EventsBounty(w: World, inp: Input)
    ensures Bounty(AfterEvents(w, inp)) == Bounty(w)
  {
    var w0 := Quitted(w, inp);
    if Slashing(w0, inp) {
      BountyConserved(SlashInRange, AttackStarted(w0.player), w0.enemies);
    }
  }

  /** Score plus 100 per live enemy is the same after every frame: a slash or nothing else scores, once per enemy. */
  lemma FrameBounty(w: World, inp: Input)
    requires Inv(w)
    ensures Bounty(AfterFrame(w, inp)) == Bounty(w)
  {
    EventsBounty(w, inp);
    var v := AfterEvents(w, inp);
    MovementBounty(v, inp);
    var u := AfterPhysics(v, inp);
    EventsAndPhysicsKeepInv(w, inp);
    DrawKeepsInv(u);
    assert AfterFrame(w, inp) == AfterDraw(u);
  }

  /** The movement block keeps score plus bounty. */
  lemma MovementBounty(w: World, inp: Input)
    ensures Bounty(AfterPhysics(w, inp)) == Bounty(w)
  {
    if w.state == Playing && !w.player.isDead {
      PhysicsConservesBounty(Config, inp, w.player, w.enemies, w.platforms);
    }
  }

  /** From the start, score plus remaining bounty is always 200, so the score never passes 200 and moves in steps of 100. */
  lemma {:induction false} RunBounty(w: World, inputs: seq<Input>)
    requires Inv(w) && Bounty(w) == 200
    ensures Bounty(Run(w, inputs)) == 200
    ensures Run(w, inputs).player.score <= 200 && Run(w, inputs).player.score % 100 == 0
    decreases |inputs|
  {
    if inputs != [] && w.running {
      FrameBounty(w, inputs[0]);
      RunBounty(AfterFrame(w, inputs[0]), inputs[1..]);
    }
  }

  /** The player and enemy objects the script creates before its loop. */
  method StartObjects() returns (player: Player, enemies: seq<Enemy>, platforms: seq<Box>)
    ensures fresh(player) && Distinct(enemies)
    ensures World(player.View(), Views(enemies), platforms, 0, Playing, true) == Start()
  {
    platforms := PlatformsOf(TexturedPlatforms, PLATFORM_HEIGHT);
    player := new Player.Animated(WIDTH / 2, (HEIGHT - PLAYER_HEIGHT) as real, TexturedFrames);
    enemies := SpawnEnemies(TexturedSpots, SrcEnemy, AllHorizontal(|TexturedSpots|));
  }

  /** The module-level globals of the script and the body of its loop. */
  class Session {
    const player: Player
    const enemies: seq<Enemy>
    const platforms: seq<Box>
    var state: GameState
    var running: bool

    ghost function Snapshot(): World
      reads this, player, set e | e in enemies
    {
      World(player.View(), Views(enemies), platforms, 0, state, running)
    }

    ghost predicate Valid()
      reads this, player, set e | e in enemies
    {
      Distinct(enemies) && Inv(Snapshot())
    }

    /** The module-level set-up: player, platforms, enemies, PLAYING. */
    constructor ()
      ensures Valid() && Snapshot() == Start()
    {
      var p, es, ps := StartObjects();
      player, enemies, platforms := p, es, ps;
      state := Playing;
      running := true;
      new;
      assert Snapshot() == Start();
      StartInv();
    }

    /** The click branch of the event loop. */
    method Slash(inp: Input)
      requires Distinct(enemies)
      modifies player, set e | e in enemies
      ensures Snapshot() == Slashed(old(Snapshot()), inp)
    {
      if state == Playing && inp.click.Some? && inp.click.value.button == 1 {
        ghost var w := Snapshot();
        player.StartAttack();
        assert Views(enemies) == w.enemies && player.View() == AttackStarted(w.player);
        var _ := ResolveContacts(SlashInRange, player, enemies);
        ghost var o := Contacts(SlashInRange, AttackStarted(w.player), w.enemies);
        assert Snapshot() == w.(player := o.player, enemies := o.enemies);
        SlashingClick(w, inp);
      }
    }

    /** The quit branch of the event loop. */
    method Quit(inp: Input)
      modifies this
      ensures Snapshot() == Quitted(old(Snapshot()), inp)
    {
      if inp.quit {
        running := false;
      }
    }

    /** The jump-key branch of the event loop. */
    method JumpKey(inp: Input)
      modifies player
      ensures Snapshot() == JumpKeyed(old(Snapshot()), inp)
    {
      if state == Playing && inp.jumpKey {
        player.Jump();
      }
    }

    /** The event loop. */
    method HandleEvents(inp: Input)
      requires Distinct(enemies)
      modifies this, player, set e | e in enemies
      ensures Snapshot() == AfterEvents(old(Snapshot()), inp)
    {
      Quit(inp);
      Slash(inp);
      JumpKey(inp);
    }

    /** A change of game state that leaves every object as it is. */
    method EnterState(s: GameState)
      modifies this
      ensures Snapshot() == old(Snapshot()).(state := s)
    {
      state := s;
    }

    /** The movement block. */
    method StepPhysics(inp: Input)
      requires Distinct(enemies)
      modifies this, player, set e | e in enemies
      ensures Snapshot() == AfterPhysics(old(Snapshot()), inp)
    {
      if state == Playing && !player.isDead {
        ghost var w := Snapshot();
        var hit := RunPhysics(Config, inp, player, enemies, platforms);
        ghost var v := Snapshot();
        if hit {
          EnterState(Dying);
        }
        PlayingPhysics(w, inp, v, hit);
      }
    }

    /** `player.draw` and the DYING check. */
    method Draw()
      requires CanAnimate(player.View(), Textured)
      modifies this, player
      ensures Snapshot() == AfterDraw(old(Snapshot()))
    {
      player.UpdateAnimationOf(Textured);
      if state == Dying && player.anim.deathFrame == player.frames.dead - 1 {
        state := GameOver;
      }
    }

    /** The event loop and the movement block, which keep the frame invariant. */
    method EventsAndPhysics(inp: Input)
      requires Valid()
      modifies this, player, set e | e in enemies
      ensures Valid() && Snapshot() == AfterPhysics(AfterEvents(old(Snapshot()), inp), inp)
    {
      EventsAndPhysicsKeepInv(Snapshot(), inp);
      HandleEvents(inp);
      StepPhysics(inp);
    }

    /** One pass of the loop. */
    method Frame(inp: Input)
      requires Valid()
      modifies this, player, set e | e in enemies
      ensures Valid() && Snapshot() == AfterFrame(old(Snapshot()), inp)
    {
      EventsAndPhysics(inp);
      ghost var v := Snapshot();
      DrawKeepsInv(v);
      Draw();
      assert Snapshot() == AfterDraw(v);
    }

    /** `while running:` over a finite sequence of frame inputs. */
    method RunLoop(inputs: seq<Input>)
      requires Valid()
      modifies this, player, set e | e in enemies
      ensures Valid() && Snapshot() == Run(old(Snapshot()), inputs)
    {
      ghost var w0 := Snapshot();
      var i := 0;
      while running && i < |inputs|
        invariant 0 <= i <= |inputs| && Valid()
        invariant Run(w0, inputs) == Run(Snapshot(), inputs[i..])
      {
        assert inputs[i..][1..] == inputs[i + 1..];
        Frame(inputs[i]);
        i := i + 1;
      }
    }
  }
}
