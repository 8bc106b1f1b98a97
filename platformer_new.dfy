/**
 * platformer/game_new.py: a one-file platformer over a level four screens
 * wide, run by a module-level loop over the globals `player`, `camera`,
 * `platforms`, `enemies` and `running`. There are no game states: a side
 * contact with a live enemy ends the loop.
 */
module PlatformerNew {
  import opened Constants
  import opened Geometry
  import opened Cameras
  import opened PlayerModel
  import opened Players
  import opened Enemies
  import opened EnemyContacts
  import opened Levels
  import opened Rounds

  /** Facing tracked, level-wide clamp with floor, `on_ground` reset, patrol before contacts, stomp or lose. */
  const Config := StepConfig(true, LevelWithFloor, true, Before(Patrolled), StompOrSide)

  /** The globals before the loop starts. */
  function Start(): World
  {
    World(PlainSpawn(50, (HEIGHT - 100) as real), SpawnsAt(LevelSpots, PatrolEnemy, AllHorizontal(|LevelSpots|)),
          PlatformsOf(PlatformerPlatforms, PlatformerPlatformHeight), 0, Playing, true)
  }

  /** The event loop: a quit clears `running`, and the space bar jumps unless already jumping, in any case. */
  function AfterEvents(w: World, inp: Input): World
  {
    JumpedOnKey(Quitted(w, inp), inp)
  }

  /** The rest of the loop body: keys, `move`, platforms, enemies, contacts, where a side contact clears `running`; then the camera. */
  function AfterStep(w: World, inp: Input): World
  {
    var o := Physics(Config, inp, w.player, w.enemies, w.platforms);
    w.(player := o.player, enemies := o.enemies, running := w.running && !o.hit, cameraX := Scroll(o.player.x))
  }

  /** One pass of the loop body. */
  function AfterFrame(w: World, inp: Input): World
  {
    AfterStep(AfterEvents(w, inp), inp)
  }

  /** `while running:` over a finite sequence of frame inputs. */
  function Run(w: World, inputs: seq<Input>): World
    decreases |inputs|
  {
    if inputs == [] || !w.running then w else Run(AfterFrame(w, inputs[0]), inputs[1..])
  }

  /** What the enemies of this level keep: the patrol invariant, speed 2, range 100 and their spawn x as anchor. */
  ghost predicate Patrols(es: seq<EnemyState>)
  {
    |es| == |LevelSpots| && AllPatrolling(es)
    && forall k :: 0 <= k < |es| ==> es[k].initialX == LevelSpots[k].x && es[k].speed == 2 && es[k].patrolRange == 100
  }

  /** The start: the 40 x 60 player at (50, HEIGHT - 100) with no score, 13 platforms, 7 live patrollers, 700 points to win. */
  lemma StartLevel()
    ensures var w := Start();
      w.player.x == 50 && w.player.y == 500.0 && w.player.width == 40 && w.player.height == 60 && w.player.score == 0
      && |w.platforms| == 13 && |w.enemies| == 7 && AliveCount(w.enemies) == 7 && Bounty(w) == 700
      && Patrols(w.enemies) && w.cameraX == 0 && w.running
  {
    SpawnsAllAlive(LevelSpots, PatrolEnemy, AllHorizontal(|LevelSpots|));
  }

  /** After any frame the player is inside the level horizontally, not below the floor, and the camera is in range. */
  lemma FrameKeepsPlayerInLevel(w: World, inp: Input)
    requires 0 <= w.player.width <= LEVEL_WIDTH
    ensures var r := AfterFrame(w, inp);
      0 <= r.player.x <= LEVEL_WIDTH - w.player.width && r.player.y <= (HEIGHT - w.player.height) as real
      && 0 <= r.cameraX <= LEVEL_WIDTH - WIDTH
  {
    var v := AfterEvents(w, inp);
    PhysicsKeepsXInBounds(Config, inp, v.player, v.enemies, v.platforms);
    PhysicsKeepsAboveFloor(Config, inp, v.player, v.enemies, v.platforms);
  }

  /** A frame adds at most one stomp's 100 to the score. */
  lemma FrameScoresAtMostOnce(w: World, inp: Input)
    requires w.player.jumpPower <= 0.0
    ensures w.player.score <= AfterFrame(w, inp).player.score <= w.player.score + 100
  {
    var v := AfterEvents(w, inp);
    PhysicsStompsAtMostOnce(Config, inp, v.player, v.enemies, v.platforms);
  }

  /** Two live enemies touching the player in one frame end the loop: at most the first one can be stomped. */
  lemma DoubleContactStops(w: World, inp: Input, i: nat, j: nat)
    requires w.player.jumpPower <= 0.0
    requires var v := AfterEvents(w, inp); var q := Landed(Config, inp, v.player, v.platforms);
      var es := MoveAll(Patrolled, v.enemies);
      i < j < |es| && es[i].alive && es[j].alive
      && Overlaps(q.Bounds(), es[i].Bounds()) && Overlaps(q.Bounds(), es[j].Bounds())
    ensures !AfterFrame(w, inp).running
  {
    var v := AfterEvents(w, inp);
    var q := Landed(Config, inp, v.player, v.platforms);
    SecondContactEndsGame(q, MoveAll(Patrolled, v.enemies), i, j);
  }

  /** Every frame keeps the enemies' patrol invariant, so each stays within 102 of where it spawned. */
  lemma FrameKeepsPatrols(w: World, inp: Input)
    requires Patrols(w.enemies)
    ensures Patrols(AfterFrame(w, inp).enemies)
  {
    var v := AfterEvents(w, inp);
    PhysicsKeepsPatrol(Config, inp, v.player, v.enemies, v.platforms);
  }

  lemma {:induction false} RunKeepsPatrols(w: World, inputs: seq<Input>)
    requires Patrols(w.enemies)
    ensures Patrols(Run(w, inputs).enemies)
    decreases |inputs|
  {
    if inputs != [] && w.running {
      FrameKeepsPatrols(w, inputs[0]);
      RunKeepsPatrols(AfterFrame(w, inputs[0]), inputs[1..]);
    }
  }

  /** Over any run from the start (see StartLevel), every enemy stays within `patrol_range + speed` = 102 of its spawn point. */
  lemma EnemiesStayNearSpawn(w: World, inputs: seq<Input>)
    requires Patrols(w.enemies)
    ensures var es := Run(w, inputs).enemies;
      |es| == 7 && forall k :: 0 <= k < 7 ==> Abs(es[k].x - LevelSpots[k].x) <= 102
  {
    RunKeepsPatrols(w, inputs);
    PatrolsStayNear(Run(w, inputs).enemies);
  }

  lemma PatrolsStayNear(es: seq<EnemyState>)
    requires Patrols(es)
    ensures |es| == 7 && forall k :: 0 <= k < 7 ==> Abs(es[k].x - LevelSpots[k].x) <= 102
  {
    forall k | 0 <= k < 7
      ensures Abs(es[k].x - LevelSpots[k].x) <= 102
    {
      assert PatrolInvariant(es[k]);
    }
  }

  /** A frame keeps score plus remaining bounty: nothing is ever revived or reset. */
  lemma FrameBounty(w: World, inp: Input)
    ensures Bounty(AfterFrame(w, inp)) == Bounty(w)
  {
    var v := AfterEvents(w, inp);
    PhysicsConservesBounty(Config, inp, v.player, v.enemies, v.platforms);
  }

  /** From the start, score plus 100 per live enemy stays 700, so the score never passes 700 and moves in steps of 100. */
  lemma {:induction false} RunBounty(w: World, inputs: seq<Input>)
    requires Bounty(w) == 700
    ensures Bounty(Run(w, inputs)) == 700
    ensures Run(w, inputs).player.score <= 700 && Run(w, inputs).player.score % 100 == 0
    decreases |inputs|
  {
    if inputs != [] && w.running {
      FrameBounty(w, inputs[0]);
      RunBounty(AfterFrame(w, inputs[0]), inputs[1..]);
    }
  }

  /** The objects the script creates before its loop. */
  method StartObjects() returns (player: Player, camera: Camera, enemies: seq<Enemy>, platforms: seq<Box>)
    ensures fresh(player) && fresh(camera) && Distinct(enemies)
    ensures World(player.View(), Views(enemies), platforms, camera.x, Playing, true) == Start()
  {
    player := new Player.Plain(50, (HEIGHT - 100) as real);
    camera := new Camera();
    platforms := PlatformsOf(PlatformerPlatforms, PlatformerPlatformHeight);
    enemies := SpawnEnemies(LevelSpots, PatrolEnemy, AllHorizontal(|LevelSpots|));
  }

  /** The module-level globals of the script and the body of its loop. */
  class Session {
    const player: Player
    const camera: Camera
    const enemies: seq<Enemy>
    const platforms: seq<Box>
    var running: bool

    ghost function Snapshot(): World
      reads this, player, camera, set e | e in enemies
    {
      World(player.View(), Views(enemies), platforms, camera.x, Playing, running)
    }

    constructor ()
      ensures Distinct(enemies) && Snapshot() == Start()
    {
      var p, c, es, ps := StartObjects();
      player, camera, enemies, platforms := p, c, es, ps;
      running := true;
    }

    /** The QUIT branch of the event loop. */
    method Quit(inp: Input)
      modifies this
      ensures Snapshot() == Quitted(old(Snapshot()), inp)
    {
      if inp.quit {
        running := false;
      }
    }

    /** The KEYDOWN branch of the event loop. */
    method JumpKey(inp: Input)
      modifies player
      ensures Snapshot() == JumpedOnKey(old(Snapshot()), inp)
    {
      if inp.jumpKey {
        player.Jump();
      }
    }

    /** The event loop. */
    method HandleEvents(inp: Input)
      modifies this, player
      ensures Snapshot() == AfterEvents(old(Snapshot()), inp)
    {
      Quit(inp);
      JumpKey(inp);
    }

    /** Movement, platforms, enemies, contacts and the camera. */
    method Step(inp: Input)
      requires Distinct(enemies)
      modifies this, player, camera, set e | e in enemies
      ensures Snapshot() == AfterStep(old(Snapshot()), inp)
    {
      var hit := RunPhysicsAndCamera(Config, inp, player, camera, enemies, platforms);
      if hit {
        running := false;
      }
    }

    /** One pass of the loop body. */
    method Frame(inp: Input)
      requires Distinct(enemies)
      modifies this, player, camera, set e | e in enemies
      ensures Snapshot() == AfterFrame(old(Snapshot()), inp)
    {
      HandleEvents(inp);
      Step(inp);
    }

    /** `while running:` over a finite sequence of frame inputs. */
    method RunLoop(inputs: seq<Input>)
      requires Distinct(enemies)
      modifies this, player, camera, set e | e in enemies
      ensures Snapshot() == Run(old(Snapshot()), inputs)
    {
      ghost var w0 := Snapshot();
      var i := 0;
      while running && i < |inputs|
        invariant 0 <= i <= |inputs|
        invariant Run(w0, inputs) == Run(Snapshot(), inputs[i..])
      {
        assert inputs[i..][1..] == inputs[i + 1..];
        Frame(inputs[i]);
        i := i + 1;
      }
    }
  }
}
