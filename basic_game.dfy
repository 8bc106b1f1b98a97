/**
 * game.py: the first single-screen prototype. A module-level loop over the
 * globals `player`, `platforms`, `enemies` and `running`; two enemies chase
 * the player's x, and touching either one ends the loop. There is no score,
 * no camera and no game state.
 */
module BasicGame {
  import opened Constants
  import opened Geometry
  import opened PlayerModel
  import opened Players
  import opened Enemies
  import opened EnemyContacts
  import opened Levels
  import opened Rounds

  /** No facing, screen-wide clamp with floor, no `on_ground` reset, enemies chase before the contacts, any touch loses. */
  const Config := StepConfig(false, ScreenWithFloor, false, ChasePlayer, TouchAny)

  /** The globals before the loop: the player at `(WIDTH // 2, HEIGHT - 60)`, four platforms, two chasers. */
  function Start(): World
  {
    World(PlainSpawn(WIDTH / 2, (HEIGHT - 60) as real), SpawnsAt(ScreenSpots, ChaseEnemy, AllHorizontal(|ScreenSpots|)),
          PlatformsOf(ScreenPlatforms, PlatformerPlatformHeight), 0, Playing, true)
  }

  /** The event loop: a quit clears `running`, and the space bar jumps unless already jumping. */
  function AfterEvents(w: World, inp: Input): World
  {
    JumpedOnKey(Quitted(w, inp), inp)
  }

  /** Keys, `move`, platforms, the chase and the contact loop, where touching an enemy clears `running`. */
  function AfterStep(w: World, inp: Input): World
  {
    var o := Physics(Config, inp, w.player, w.enemies, w.platforms);
    w.(player := o.player, enemies := o.enemies, running := w.running && !o.hit)
  }

  /** One pass of the loop body. */
  function AfterFrame(w: World, inp: Input): World
  {
    AfterStep(AfterEvents(w, inp), inp)
  }

  /** `while running:` over a finite sequence of frame inputs. */
  function Run(w: World, inputs: seq<Input>): World
    decreases |inputs|
  {
    if inputs == [] || !w.running then w else Run(AfterFrame(w, inputs[0]), inputs[1..])
  }

  /** The player the frame's contact loop sees, after keys, `move` and the platform loop. */
  function LandedPlayer(w: World, inp: Input): PlayerState
  {
    var v := AfterEvents(w, inp);
    Landed(Config, inp, v.player, v.platforms)
  }

  /** The enemies the frame's contact loop sees, after each stepped towards that player. */
  function ChasedEnemies(w: World, inp: Input): seq<EnemyState>
  {
    MoveAll(Chasing(LandedPlayer(w, inp).x), w.enemies)
  }

  /** The start: the 40 x 60 player at (400, 540), four platforms, two chasers at their spawn points. */
  lemma StartScreen()
    ensures var w := Start();
      w.player.x == 400 && w.player.y == 540.0 && w.player.width == 40 && w.player.height == 60
      && |w.platforms| == 4 && |w.enemies| == 2 && AliveCount(w.enemies) == 2 && w.running
      && w.enemies[0].x == 100 && w.enemies[0].y == 450.0 && w.enemies[1].x == 600 && w.enemies[1].y == 250.0
      && forall k :: 0 <= k < 2 ==> w.enemies[k].speed == 2 && w.enemies[k].width == 30 && w.enemies[k].height == 30
  {
    SpawnsAllAlive(ScreenSpots, ChaseEnemy, AllHorizontal(|ScreenSpots|));
  }

  /**
   * The loop goes on after a frame exactly when it was running, no quit came,
   * and the player as landed touches neither chaser after its step.
   */
  lemma FrameStopsIff(w: World, inp: Input)
    ensures var q := LandedPlayer(w, inp); var es := ChasedEnemies(w, inp);
      AfterFrame(w, inp).running <==>
        w.running && !inp.quit && !exists k :: 0 <= k < |es| && Overlaps(q.Bounds(), es[k].Bounds())
  {
    var v := AfterEvents(w, inp);
    var q := LandedPlayer(w, inp);
    assert v.enemies == w.enemies;
    TouchAnyHitIff(q, MoveAll(Chasing(q.x), v.enemies));
    assert Physics(Config, inp, v.player, v.enemies, v.platforms) == Contacts(TouchAny, q, ChasedEnemies(w, inp));
  }

  /** A frame leaves the player as landed and only steps each enemy `speed` towards it; nothing is ever killed. */
  lemma FrameOnlyChases(w: World, inp: Input)
    requires forall k :: 0 <= k < |w.enemies| ==> w.enemies[k].speed > 0
    ensures var r := AfterFrame(w, inp); var q := LandedPlayer(w, inp);
      r.player == q && r.platforms == w.platforms && |r.enemies| == |w.enemies|
      && forall k :: 0 <= k < |w.enemies| ==>
           r.enemies[k] == w.enemies[k].(x := r.enemies[k].x)
           && (r.enemies[k].x == w.enemies[k].x + w.enemies[k].speed <==> w.enemies[k].x < q.x)
  {
    var v := AfterEvents(w, inp);
    var q := LandedPlayer(w, inp);
    assert v.enemies == w.enemies;
    TouchAnyHitIff(q, MoveAll(Chasing(q.x), v.enemies));
    assert Physics(Config, inp, v.player, v.enemies, v.platforms) == Contacts(TouchAny, q, ChasedEnemies(w, inp));
  }

  /** After any frame the player is on the screen horizontally and not below its bottom edge. */
  lemma FrameKeepsPlayerOnScreen(w: World, inp: Input)
    requires 0 <= w.player.width <= WIDTH
    ensures var r := AfterFrame(w, inp);
      0 <= r.player.x <= WIDTH - w.player.width && r.player.y <= (HEIGHT - w.player.height) as real
  {
    var v := AfterEvents(w, inp);
    PhysicsKeepsXInBounds(Config, inp, v.player, v.enemies, v.platforms);
    PhysicsKeepsAboveFloor(Config, inp, v.player, v.enemies, v.platforms);
  }

  /** Over any run the chasers keep their rows, sizes and lives, and the player never scores. */
  lemma {:induction false} RunOnlyChases(w: World, inputs: seq<Input>)
    requires forall k :: 0 <= k < |w.enemies| ==> w.enemies[k].speed > 0
    ensures var r := Run(w, inputs);
      r.player.score == w.player.score && |r.enemies| == |w.enemies|
      && forall k :: 0 <= k < |w.enemies| ==> r.enemies[k] == w.enemies[k].(x := r.enemies[k].x)
    decreases |inputs|
  {
    if inputs != [] && w.running {
      FrameOnlyChases(w, inputs[0]);
      RunOnlyChases(AfterFrame(w, inputs[0]), inputs[1..]);
    }
  }

  /** The objects the script creates before its loop. */
  method StartObjects() returns (player: Player, enemies: seq<Enemy>, platforms: seq<Box>)
    ensures fresh(player) && Distinct(enemies)
    ensures World(player.View(), Views(enemies), platforms, 0, Playing, true) == Start()
  {
    player := new Player.Plain(WIDTH / 2, (HEIGHT - 60) as real);
    platforms := PlatformsOf(ScreenPlatforms, PlatformerPlatformHeight);
    enemies := SpawnEnemies(ScreenSpots, ChaseEnemy, AllHorizontal(|ScreenSpots|));
  }

  /** The module-level globals of the script and the body of its loop. */
  class Session {
    const player: Player
    const enemies: seq<Enemy>
    const platforms: seq<Box>
    var running: bool

    ghost function Snapshot(): World
      reads this, player, set e | e in enemies
    {
      World(player.View(), Views(enemies), platforms, 0, Playing, running)
    }

    constructor ()
      ensures Distinct(enemies) && Snapshot() == Start()
    {
      var p, es, ps := StartObjects();
      player, enemies, platforms := p, es, ps;
      running := true;
    }

    /** The QUIT branch of the event loop. */
    method Quit(inp: Input)
      modifies this
      ensures Snapshot() == Quitted(old(Snapshot()), inp)
    {
      if inp.quit {
        running := false;
      }
    }

    /** The KEYDOWN branch of the event loop. */
    method JumpKey(inp: Input)
      modifies player
      ensures Snapshot() == JumpedOnKey(old(Snapshot()), inp)
    {
      if inp.jumpKey {
        player.Jump();
      }
    }

    /** The event loop. */
    method HandleEvents(inp: Input)
      modifies this, player
      ensures Snapshot() == AfterEvents(old(Snapshot()), inp)
    {
      Quit(inp);
      JumpKey(inp);
    }

    /** Keys, `move`, platforms, the chase and the contacts. */
    method Step(inp: Input)
      requires Distinct(enemies)
      modifies this, player, set e | e in enemies
      ensures Snapshot() == AfterStep(old(Snapshot()), inp)
    {
      var hit := RunPhysics(Config, inp, player, enemies, platforms);
      if hit {
        running := false;
      }
    }

    /** One pass of the loop body. */
    method Frame(inp: Input)
      requires Distinct(enemies)
      modifies this, player, set e | e in enemies
      ensures Snapshot() == AfterFrame(old(Snapshot()), inp)
    {
      HandleEvents(inp);
      Step(inp);
    }

    /** `while running:` over a finite sequence of frame inputs. */
    method RunLoop(inputs: seq<Input>)
      requires Distinct(enemies)
      modifies this, player, set e | e in enemies
      ensures Snapshot() == Run(old(Snapshot()), inputs)
    {
      ghost var w0 := Snapshot();
      var i := 0;
      while running && i < |inputs|
        invariant 0 <= i <= |inputs|
        invariant Run(w0, inputs) == Run(Snapshot(), inputs[i..])
      {
        assert inputs[i..][1..] == inputs[i + 1..];
        Frame(inputs[i]);
        i := i + 1;
      }
    }
  }
}
