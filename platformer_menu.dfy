/**
 * platformer/game.py: platformer/game_new.py's level with a MENU, PLAYING and
 * GAME_OVER state, START and RETRY buttons, and enemies that either patrol
 * horizontally or bob along a sine curve. As written, line 269 fuses the end
 * of an ungated copy of the frame step with the start of the PLAYING-gated
 * one, so the file does not parse; this model follows the gated step.
 */
module PlatformerMenu {
  import opened Constants
  import opened Geometry
  import opened Cameras
  import opened PlayerModel
  import opened Players
  import opened Enemies
  import opened EnemyContacts
  import opened Levels
  import opened Rounds

  /** Facing tracked, level-wide clamp with floor, `on_ground` reset, every enemy moved by its mode before the contacts, stomp or lose. */
  function Config(sin: real -> real): StepConfig
  {
    StepConfig(true, LevelWithFloor, true, Before(ByMode(sin)), StompOrSide)
  }

  /** `start_button` and `retry_button` share one rectangle. */
  const StartButton := Rect(WIDTH / 2 - 50, HEIGHT / 2, 100, 50)
  const RetryButton := Rect(WIDTH / 2 - 50, HEIGHT / 2, 100, 50)

  /** `Player(50, HEIGHT - 100)`, as created at start-up and by `reset_game`. */
  function Spawned(): PlayerState
  {
    PlainSpawn(50, (HEIGHT - 100) as real)
  }

  /** The globals before the loop, given the mode `random.choice` picked for each enemy. */
  function Start(modes: seq<Mode>): World
    requires |modes| == |LevelSpots|
  {
    World(Spawned(), SpawnsAt(LevelSpots, ModeEnemy, modes),
          PlatformsOf(PlatformerPlatforms, PlatformerPlatformHeight), 0, Menu, true)
  }

  /** The enemies after `for enemy in enemies: enemy.alive = True`. */
  function Revived(es: seq<EnemyState>): (rs: seq<EnemyState>)
    ensures |rs| == |es| && forall k :: 0 <= k < |es| ==> rs[k] == es[k].(alive := true)
  {
    seq(|es|, k requires 0 <= k < |es| => es[k].(alive := true))
  }

  /** `reset_game`: a new player, PLAYING, every enemy alive again where it is; the camera is left alone. */
  function Reset(w: World): World
  {
    w.(player := Spawned(), state := Playing, enemies := Revived(w.enemies))
  }

  predicate StartClicked(w: World, inp: Input)
  {
    inp.click.Some? && w.state == Menu && Contains(StartButton, inp.click.value.x, inp.click.value.y)
  }

  predicate RetryClicked(w: World, inp: Input)
  {
    inp.click.Some? && w.state == GameOver && Contains(RetryButton, inp.click.value.x, inp.click.value.y)
  }

  /** The MOUSEBUTTONDOWN branch: START in MENU starts play, RETRY in GAME_OVER resets; any other click changes nothing. */
  function Clicked(w: World, inp: Input): (r: World)
    ensures StartClicked(w, inp) ==> r == w.(state := Playing)
    ensures RetryClicked(w, inp) ==> r == Reset(w)
    ensures !StartClicked(w, inp) && !RetryClicked(w, inp) ==> r == w
  {
    if StartClicked(w, inp) then w.(state := Playing)
    else if RetryClicked(w, inp) then Reset(w)
    else w
  }

  /** The KEYDOWN branch: the space bar jumps only in PLAYING and only when not already jumping. */
  function Keyed(w: World, inp: Input): (r: World)
    ensures w.state != Playing || !inp.jumpKey ==> r == w
    ensures w.state == Playing && inp.jumpKey ==> r == w.(player := Jumped(w.player))
  {
    if w.state == Playing then JumpedOnKey(w, inp) else w
  }

  /** The event loop: a quit clears `running` and handling goes on; the click; the key. */
  function AfterEvents(w: World, inp: Input): World
  {
    Keyed(Clicked(Quitted(w, inp), inp), inp)
  }

  /** The `if game_state == PLAYING:` block: the physics step, GAME_OVER on a side contact, then the camera. */
  function AfterStep(sin: real -> real, w: World, inp: Input): (r: World)
    ensures w.state != Playing ==> r == w
    ensures r.running == w.running && r.platforms == w.platforms && |r.enemies| == |w.enemies|
    ensures w.state == Playing ==> r.state in {Playing, GameOver} && 0 <= r.cameraX <= LEVEL_WIDTH - WIDTH
  {
    if w.state != Playing then w
    else
      var o := Physics(Config(sin), inp, w.player, w.enemies, w.platforms);
      w.(player := o.player, enemies := o.enemies, state := if o.hit then GameOver else Playing,
         cameraX := Scroll(o.player.x))
  }

  /** The PLAYING-gated block, given the world after the physics step and the camera and whether it ended the round. */
  lemma PlayingStep(sin: real -> real, w: World, inp: Input, v: World, hit: bool)
    requires w.state == Playing
    requires var o := Physics(Config(sin), inp, w.player, w.enemies, w.platforms);
      v == w.(player := o.player, enemies := o.enemies, cameraX := Scroll(o.player.x)) && hit == o.hit
    ensures AfterStep(sin, w, inp) == v.(state := if hit then GameOver else Playing)
  {
  }

  /** One pass of the loop body. */
  function AfterFrame(sin: real -> real, w: World, inp: Input): World
  {
    AfterStep(sin, AfterEvents(w, inp), inp)
  }

  /** `while running:` over a finite sequence of frame inputs. */
  function Run(sin: real -> real, w: World, inputs: seq<Input>): World
    decreases |inputs|
  {
    if inputs == [] || !w.running then w else Run(sin, AfterFrame(sin, w, inputs[0]), inputs[1..])
  }

  /** Reviving every enemy leaves them all alive. */
  lemma {:induction false} RevivedAllAlive(es: seq<EnemyState>)
    ensures AliveCount(Revived(es)) == |es|
    decreases |es|
  {
    if es != [] {
      var n := |es| - 1;
      RevivedAllAlive(es[..n]);
      assert Revived(es)[..n] == Revived(es[..n]);
    }
  }

  /**
   * `reset_game` restarts the round with a new player and every enemy alive,
   * so the bounty is back to 100 per enemy; positions, directions, path
   * positions and the camera are not reset.
   */
  lemma ResetRevives(w: World)
    ensures var r := Reset(w);
      r.state == Playing && r.player.score == 0 && r.player.x == 50 && r.player.y == 500.0
      && AliveCount(r.enemies) == |w.enemies| && Bounty(r) == 100 * |w.enemies|
      && r.cameraX == w.cameraX && r.platforms == w.platforms
      && forall k :: 0 <= k < |w.enemies| ==>
           r.enemies[k].alive && r.enemies[k].x == w.enemies[k].x
           && r.enemies[k].direction == w.enemies[k].direction && r.enemies[k].pathPos == w.enemies[k].pathPos
  {
    RevivedAllAlive(w.enemies);
  }

  /** What the enemies of this level keep: the patrol invariant, speed 2, range 150 and their spawn x as anchor. */
  ghost predicate Patrols(es: seq<EnemyState>)
  {
    |es| == |LevelSpots| && AllPatrolling(es)
    && forall k :: 0 <= k < |es| ==> es[k].initialX == LevelSpots[k].x && es[k].speed == 2 && es[k].patrolRange == 150
  }

  /** The start: MENU, the 40 x 60 player at (50, HEIGHT - 100), 13 platforms, 7 live enemies in either mode, 700 points to win. */
  lemma StartLevel(modes: seq<Mode>)
    requires |modes| == |LevelSpots|
    ensures var w := Start(modes);
      w.state == Menu && w.running && w.player.score == 0 && |w.platforms| == 13
      && AliveCount(w.enemies) == 7 && Bounty(w) == 700 && Patrols(w.enemies)
  {
    SpawnsAllAlive(LevelSpots, ModeEnemy, modes);
  }

  /** In PLAYING the player stays inside the level horizontally and not below the floor, and the camera in range. */
  lemma StepKeepsPlayerInLevel(sin: real -> real, w: World, inp: Input)
    requires w.state == Playing && 0 <= w.player.width <= LEVEL_WIDTH
    ensures var r := AfterStep(sin, w, inp);
      0 <= r.player.x <= LEVEL_WIDTH - w.player.width && r.player.y <= (HEIGHT - w.player.height) as real
  {
    PhysicsKeepsXInBounds(Config(sin), inp, w.player, w.enemies, w.platforms);
    PhysicsKeepsAboveFloor(Config(sin), inp, w.player, w.enemies, w.platforms);
  }

  /** Two live enemies touching the player in one PLAYING step end the round. */
  lemma DoubleContactEndsRound(sin: real -> real, w: World, inp: Input, i: nat, j: nat)
    requires w.state == Playing && w.player.jumpPower <= 0.0
    requires var q := Landed(Config(sin), inp, w.player, w.platforms); var es := MoveAll(ByMode(sin), w.enemies);
      i < j < |es| && es[i].alive && es[j].alive
      && Overlaps(q.Bounds(), es[i].Bounds()) && Overlaps(q.Bounds(), es[j].Bounds())
    ensures AfterStep(sin, w, inp).state == GameOver
  {
    var q := Landed(Config(sin), inp, w.player, w.platforms);
    SecondContactEndsGame(q, MoveAll(ByMode(sin), w.enemies), i, j);
  }

  /** A frame keeps the enemies' patrol invariant, whatever their modes and whatever `sin` returns; a reset moves nobody. */
  lemma FrameKeepsPatrols(sin: real -> real, w: World, inp: Input)
    requires Patrols(w.enemies)
    ensures Patrols(AfterFrame(sin, w, inp).enemies)
  {
    var c := Clicked(Quitted(w, inp), inp);
    KillingKeepsPatrol(w.enemies, c.enemies);
    var v := AfterEvents(w, inp);
    assert v.enemies == c.enemies;
    if v.state == Playing {
      PhysicsKeepsPatrol(Config(sin), inp, v.player, v.enemies, v.platforms);
      assert AfterFrame(sin, w, inp).enemies == Physics(Config(sin), inp, v.player, v.enemies, v.platforms).enemies;
    } else {
      assert AfterFrame(sin, w, inp) == v;
    }
  }

  lemma {:induction false} RunKeepsPatrols(sin: real -> real, w: World, inputs: seq<Input>)
    requires Patrols(w.enemies)
    ensures Patrols(Run(sin, w, inputs).enemies)
    decreases |inputs|
  {
    if inputs != [] && w.running {
      FrameKeepsPatrols(sin, w, inputs[0]);
      RunKeepsPatrols(sin, AfterFrame(sin, w, inputs[0]), inputs[1..]);
    }
  }

  lemma PatrolsStayNear(es: seq<EnemyState>)
    requires Patrols(es)
    ensures |es| == 7 && forall k :: 0 <= k < 7 ==> Abs(es[k].x - LevelSpots[k].x) <= 152
  {
    forall k | 0 <= k < 7
      ensures Abs(es[k].x - LevelSpots[k].x) <= 152
    {
      assert PatrolInvariant(es[k]);
    }
  }

  /** Over any run from the start (see StartLevel), every enemy stays within `patrol_range + speed` = 152 of its spawn x. */
  lemma EnemiesStayNearSpawn(sin: real -> real, w: World, inputs: seq<Input>)
    requires Patrols(w.enemies)
    ensures var es := Run(sin, w, inputs).enemies;
      |es| == 7 && forall k :: 0 <= k < 7 ==> Abs(es[k].x - LevelSpots[k].x) <= 152
  {
    RunKeepsPatrols(sin, w, inputs);
    PatrolsStayNear(Run(sin, w, inputs).enemies);
  }

  /** A frame keeps score plus remaining bounty, except that a retry click puts it back at 100 per enemy. */
  lemma FrameBounty(sin: real -> real, w: World, inp: Input)
    ensures |AfterFrame(sin, w, inp).enemies| == |w.enemies|
    ensures Bounty(AfterFrame(sin, w, inp)) == if RetryClicked(w, inp) then 100 * |w.enemies| else Bounty(w)
  {
    var w0 := Quitted(w, inp);
    if RetryClicked(w0, inp) {
      ResetRevives(w0);
    }
    var v := AfterEvents(w, inp);
    if v.state == Playing {
      PhysicsConservesBounty(Config(sin), inp, v.player, v.enemies, v.platforms);
    }
  }

  /** From the start, score plus 100 per live enemy is 700 after every frame, retries included. */
  lemma {:induction false} RunBounty(sin: real -> real, w: World, inputs: seq<Input>)
    requires |w.enemies| == 7 && Bounty(w) == 700
    ensures Bounty(Run(sin, w, inputs)) == 700
    ensures Run(sin, w, inputs).player.score <= 700 && Run(sin, w, inputs).player.score % 100 == 0
    decreases |inputs|
  {
    if inputs != [] && w.running {
      FrameBounty(sin, w, inputs[0]);
      RunBounty(sin, AfterFrame(sin, w, inputs[0]), inputs[1..]);
    }
  }

  /** The enemy loop of `reset_game`. */
  method ReviveEnemies(enemies: seq<Enemy>)
    requires Distinct(enemies)
    modifies set e | e in enemies
    ensures Views(enemies) == Revived(old(Views(enemies)))
  {
    ghost var before := Views(enemies);
    var i := 0;
    while i < |enemies|
      invariant 0 <= i <= |enemies|
      invariant forall k :: 0 <= k < i ==> enemies[k].View() == before[k].(alive := true)
      invariant forall k :: i <= k < |enemies| ==> enemies[k].View() == before[k]
    {
      enemies[i].alive := true;
      i := i + 1;
    }
  }

  /** The objects the script creates before its loop. */
  method StartObjects(modes: seq<Mode>) returns (player: Player, camera: Camera, enemies: seq<Enemy>, platforms: seq<Box>)
    requires |modes| == |LevelSpots|
    ensures fresh(player) && fresh(camera) && Distinct(enemies)
    ensures World(player.View(), Views(enemies), platforms, camera.x, Menu, true) == Start(modes)
  {
    player := new Player.Plain(50, (HEIGHT - 100) as real);
    camera := new Camera();
    platforms := PlatformsOf(PlatformerPlatforms, PlatformerPlatformHeight);
    enemies := SpawnEnemies(LevelSpots, ModeEnemy, modes);
  }

  /** The module-level globals of the script and the body of its loop; `reset_game` rebinds `player`. */
  class Session {
    var player: Player
    const camera: Camera
    const enemies: seq<Enemy>
    const platforms: seq<Box>
    var state: GameState
    var running: bool
    /** `math.sin`. */
    const sin: real -> real

    ghost function Snapshot(): World
      reads this, player, camera, set e | e in enemies
    {
      World(player.View(), Views(enemies), platforms, camera.x, state, running)
    }

    constructor (modes: seq<Mode>, sine: real -> real)
      requires |modes| == |LevelSpots|
      ensures Distinct(enemies) && Snapshot() == Start(modes) && sin == sine
    {
      var p, c, es, ps := StartObjects(modes);
      ghost var w := World(p.View(), Views(es), ps, c.x, Menu, true);
      player, camera, enemies, platforms := p, c, es, ps;
      state, running := Menu, true;
      sin := sine;
      assert p.View() == w.player && Views(es) == w.enemies;
    }

    /** `reset_game`. */
    method ResetGame()
      requires Distinct(enemies)
      modifies this, set e | e in enemies
      ensures Snapshot() == Reset(old(Snapshot())) && fresh(player)
    {
      player := new Player.Plain(50, (HEIGHT - 100) as real);
      state := Playing;
      ReviveEnemies(enemies);
    }

    /** The QUIT branch of the event loop. */
    method Quit(inp: Input)
      modifies this
      ensures Snapshot() == Quitted(old(Snapshot()), inp) && player == old(player)
    {
      if inp.quit {
        running := false;
      }
    }

    /** The MOUSEBUTTONDOWN branch of the event loop. */
    method HandleClick(inp: Input)
      requires Distinct(enemies)
      modifies this, set e | e in enemies
      ensures Snapshot() == Clicked(old(Snapshot()), inp)
      ensures player == old(player) || fresh(player)
    {
      if inp.click.Some? {
        var c := inp.click.value;
        if state == Menu && Contains(StartButton, c.x, c.y) {
          state := Playing;
        } else if state == GameOver && Contains(RetryButton, c.x, c.y) {
          ResetGame();
        }
      }
    }

    /** The KEYDOWN branch of the event loop. */
    method JumpKey(inp: Input)
      modifies player
      ensures Snapshot() == Keyed(old(Snapshot()), inp)
    {
      if state == Playing && inp.jumpKey {
        player.Jump();
      }
    }

    /** The event loop. */
    method HandleEvents(inp: Input)
      requires Distinct(enemies)
      modifies this, player, set e | e in enemies
      ensures Snapshot() == AfterEvents(old(Snapshot()), inp)
      ensures player == old(player) || fresh(player)
    {
      Quit(inp);
      HandleClick(inp);
      JumpKey(inp);
    }

    /** A change of game state that leaves every object as it is. */
    method EnterState(s: GameState)
      modifies this
      ensures Snapshot() == old(Snapshot()).(state := s) && player == old(player)
    {
      state := s;
    }

    /** The PLAYING-gated block. */
    method Step(inp: Input)
      requires Distinct(enemies)
      modifies this, player, camera, set e | e in enemies
      ensures Snapshot() == AfterStep(sin, old(Snapshot()), inp) && player == old(player)
    {
      if state == Playing {
        ghost var w := Snapshot();
        var hit := RunPhysicsAndCamera(Config(sin), inp, player, camera, enemies, platforms);
        ghost var v := Snapshot();
        if hit {
          EnterState(GameOver);
        }
        PlayingStep(sin, w, inp, v, hit);
      }
    }

    /** One pass of the loop body. */
    method Frame(inp: Input)
      requires Distinct(enemies)
      modifies this, player, camera, set e | e in enemies
      ensures Snapshot() == AfterFrame(sin, old(Snapshot()), inp)
      ensures player == old(player) || fresh(player)
    {
      HandleEvents(inp);
      Step(inp);
    }

    /** `while running:` over a finite sequence of frame inputs. */
    method RunLoop(inputs: seq<Input>)
      requires Distinct(enemies)
      modifies this, player, camera, set e | e in enemies
      ensures Snapshot() == Run(sin, old(Snapshot()), inputs)
    {
      ghost var w0 := Snapshot();
      var i := 0;
      while running && i < |inputs|
        invariant 0 <= i <= |inputs|
        invariant player == old(player) || fresh(player)
        invariant Run(sin, w0, inputs) == Run(sin, Snapshot(), inputs[i..])
      {
        assert inputs[i..][1..] == inputs[i + 1..];
        Frame(inputs[i]);
        i := i + 1;
      }
    }
  }
}
