/**
 * main.py: the `Game` class. Its `update` moves each live enemy inside the
 * contact loop, and a side contact is forgiven while the player attacks,
 * which with src/player/player.py's never-cleared `is_attacking` means for
 * the rest of the round.
 */
module MainGame {
  import opened Constants
  import opened Geometry
  import opened Cameras
  import opened PlayerModel
  import opened Players
  import opened Enemies
  import opened EnemyContacts
  import opened Levels
  import opened Rounds
  import opened City

  /** Facing tracked, level-wide clamp without floor, `on_ground` reset, enemies moved in the contact loop. */
  const Config := StepConfig(true, LevelNoFloor, true, InsideContacts, ShieldedStomp)

  /** `update`: nothing outside PLAYING; otherwise the physics step, GAME_OVER on an unshielded side contact, then the camera. */
  function AfterUpdate(w: World, inp: Input): (r: World)
    ensures w.state != Playing ==> r == w
    ensures r.platforms == w.platforms && r.running == w.running && |r.enemies| == |w.enemies|
    ensures w.state == Playing ==> r.state in {Playing, GameOver} && 0 <= r.cameraX <= LEVEL_WIDTH - WIDTH
  {
    if w.state != Playing then w
    else
      var o := Physics(Config, inp, w.player, w.enemies, w.platforms);
      w.(player := o.player, enemies := o.enemies, state := if o.hit then GameOver else Playing,
         cameraX := Scroll(o.player.x))
  }

  /** `update` while PLAYING, given the world after the physics step and the camera and whether it ended the round. */
  lemma PlayingUpdate(w: World, inp: Input, v: World, hit: bool)
    requires w.state == Playing
    requires var o := Physics(Config, inp, w.player, w.enemies, w.platforms);
      v == w.(player := o.player, enemies := o.enemies, cameraX := Scroll(o.player.x)) && hit == o.hit
    ensures AfterUpdate(w, inp) == v.(state := if hit then GameOver else Playing)
  {
  }

  /** One pass of `run`: `handle_events`, then `update` whatever it returned. */
  function AfterFrame(w: World, inp: Input): World
  {
    AfterUpdate(AfterEvents(w, inp), inp)
  }

  /** `run`: frames until `handle_events` reports a quit. */
  function Run(w: World, inputs: seq<Input>): World
    decreases |inputs|
  {
    if inputs == [] || !w.running then w else Run(AfterFrame(w, inputs[0]), inputs[1..])
  }

  /** While playing, the player never leaves the level horizontally. */
  lemma UpdateKeepsPlayerInLevel(w: World, inp: Input)
    requires w.state == Playing && 0 <= w.player.width <= LEVEL_WIDTH
    ensures 0 <= AfterUpdate(w, inp).player.x <= LEVEL_WIDTH - w.player.width
  {
    PhysicsKeepsXInBounds(Config, inp, w.player, w.enemies, w.platforms);
  }

  /** A frame adds at most one stomp's 100 to the score: the bounce leaves the player rising for the rest of the loop. */
  lemma UpdateScoresAtMostOnce(w: World, inp: Input)
    requires w.player.jumpPower <= 0.0
    ensures w.player.score <= AfterUpdate(w, inp).player.score <= w.player.score + 100
  {
    if w.state == Playing {
      PhysicsStompsAtMostOnce(Config, inp, w.player, w.enemies, w.platforms);
    }
  }

  /** An attacking player in PLAYING is still attacking and still PLAYING after any frame. */
  lemma ShieldHolds(w: World, inp: Input)
    requires w.state == Playing && w.player.isAttacking
    ensures AfterFrame(w, inp).state == Playing && AfterFrame(w, inp).player.isAttacking
  {
    var v := AfterEvents(w, inp);
    var q := Landed(Config, inp, v.player, v.platforms);
    PhysicsKeepsAttack(Config, inp, v.player, v.enemies, v.platforms);
    AttackShields(q, v.enemies);
  }

  /** Hence after one attack no side contact can end the round, however many frames follow. */
  lemma {:induction false} ShieldLasts(w: World, inputs: seq<Input>)
    requires w.state == Playing && w.player.isAttacking
    ensures Run(w, inputs).state == Playing && Run(w, inputs).player.isAttacking
    decreases |inputs|
  {
    if inputs != [] && w.running {
      ShieldHolds(w, inputs[0]);
      ShieldLasts(AfterFrame(w, inputs[0]), inputs[1..]);
    }
  }

  /** A frame keeps score plus remaining bounty, except that a retry click restarts it at 700. */
  lemma FrameBounty(w: World, inp: Input)
    ensures Bounty(AfterFrame(w, inp)) == if !inp.quit && RetryClicked(w, inp) then 700 else Bounty(w)
  {
    var v := AfterEvents(w, inp);
    if !inp.quit && RetryClicked(w, inp) {
      FreshLevel(Playing);
      assert v.enemies == Fresh(Playing).enemies;
    }
    if v.state == Playing {
      PhysicsConservesBounty(Config, inp, v.player, v.enemies, v.platforms);
    }
  }

  /**
   * From a fresh level the score plus 100 per live enemy stays 700 over any
   * run: every enemy pays out 100 at most once and nothing else scores.
   */
  lemma {:induction false} RunBounty(w: World, inputs: seq<Input>)
    requires Bounty(w) == 700
    ensures Bounty(Run(w, inputs)) == 700
    ensures Run(w, inputs).player.score <= 700
    ensures Run(w, inputs).player.score % 100 == 0
    decreases |inputs|
  {
    if inputs != [] && w.running {
      FrameBounty(w, inputs[0]);
      RunBounty(AfterFrame(w, inputs[0]), inputs[1..]);
    }
  }

  class Game {
    var player: Player
    var camera: Camera
    var platforms: seq<Box>
    var enemies: seq<Enemy>
    var state: GameState

    ghost predicate Valid()
      reads this
    {
      Distinct(enemies)
    }

    /** The game as a value, with the run loop's `running` flag. */
    ghost function Snapshot(running: bool): World
      reads this, player, camera, set e | e in enemies
    {
      World(player.View(), Views(enemies), platforms, camera.x, state, running)
    }

    /** `__init__`: MENU, then `init_game_objects`. */
    constructor ()
      ensures Valid() && Snapshot(true) == Fresh(Menu)
    {
      state := Menu;
      var p, c, ps, es := NewLevel(Menu);
      player, camera, platforms, enemies := p, c, ps, es;
    }

    /** `init_game_objects`: new player, camera, platforms and enemies; the game state is kept. */
    method InitGameObjects()
      modifies this
      ensures Valid() && Snapshot(true) == Fresh(state) && state == old(state)
      ensures fresh(player) && fresh(camera) && forall e :: e in enemies ==> fresh(e)
    {
      var p, c, ps, es := NewLevel(state);
      ghost var w := World(p.View(), Views(es), ps, c.x, state, true);
      player, camera, platforms, enemies := p, c, ps, es;
      assert p.View() == w.player && Views(es) == w.enemies;
    }

    /** `reset_game`: PLAYING on a fresh level. */
    method ResetGame()
      modifies this
      ensures Valid() && Snapshot(true) == Fresh(Playing)
      ensures fresh(player) && fresh(camera) && forall e :: e in enemies ==> fresh(e)
    {
      state := Playing;
      InitGameObjects();
    }

    /** The click branch of `handle_events`. */
    method HandleClick(inp: Input)
      requires Valid()
      modifies this
      ensures Valid() && Snapshot(true) == Clicked(old(Snapshot(true)), inp)
      ensures (player == old(player) && camera == old(camera) && enemies == old(enemies))
           || (fresh(player) && fresh(camera) && forall e :: e in enemies ==> fresh(e))
    {
      if inp.click.Some? {
        var c := inp.click.value;
        if state == Menu && Contains(StartButton, c.x, c.y) {
          state := Playing;
        } else if state == GameOver && Contains(RetryButton, c.x, c.y) {
          ResetGame();
        }
      }
    }

    /** The key branch of `handle_events`. */
    method HandleKeys(inp: Input)
      modifies player
      ensures Snapshot(true) == Keyed(old(Snapshot(true)), inp)
    {
      ghost var vs := Views(enemies);
      if state == Playing && inp.jumpKey {
        player.Jump();
      }
      if state == Playing && inp.attackKey {
        player.StartAttackAlways();
      }
      assert Views(enemies) == vs;
    }

    /** `handle_events`, returning whether the game keeps running. */
    method HandleEvents(inp: Input) returns (keepRunning: bool)
      requires Valid()
      modifies this, player
      ensures Valid() && Snapshot(keepRunning) == AfterEvents(old(Snapshot(true)), inp)
      ensures (player == old(player) && camera == old(camera) && enemies == old(enemies))
           || (fresh(player) && fresh(camera) && forall e :: e in enemies ==> fresh(e))
    {
      if inp.quit {
        return false;
      }
      HandleClick(inp);
      HandleKeys(inp);
      return true;
    }

    /** A change of game state that leaves every object as it is. */
    method EnterState(s: GameState)
      modifies this
      ensures state == s && player == old(player) && camera == old(camera) && enemies == old(enemies)
      ensures Snapshot(true) == old(Snapshot(true)).(state := s)
    {
      state := s;
    }

    /** `update`. */
    method Update(inp: Input)
      requires Valid()
      modifies this, player, camera, set e | e in enemies
      ensures Valid() && Snapshot(true) == AfterUpdate(old(Snapshot(true)), inp)
      ensures player == old(player) && camera == old(camera) && enemies == old(enemies)
    {
      if state == Playing {
        ghost var w := Snapshot(true);
        var hit := RunPhysicsAndCamera(Config, inp, player, camera, enemies, platforms);
        ghost var v := Snapshot(true);
        if hit {
          EnterState(GameOver);
        }
        PlayingUpdate(w, inp, v, hit);
      }
    }

    /** One iteration of `run`'s loop. */
    method Frame(inp: Input) returns (running: bool)
      requires Valid()
      modifies this, player, camera, set e | e in enemies
      ensures Valid() && Snapshot(running) == AfterFrame(old(Snapshot(true)), inp)
      ensures (player == old(player) && camera == old(camera) && enemies == old(enemies))
           || (fresh(player) && fresh(camera) && forall e :: e in enemies ==> fresh(e))
    {
      running := HandleEvents(inp);
      assert player == old(player) || fresh(player);
      assert camera == old(camera) || fresh(camera);
      assert forall e :: e in enemies ==> e in old(enemies) || fresh(e);
      ghost var w := Snapshot(running);
      Update(inp);
      assert Snapshot(running) == AfterUpdate(w, inp);
    }

    /** `run`: frames until `handle_events` reports a quit, here over a finite sequence of frame inputs. */
    method RunLoop(inputs: seq<Input>) returns (running: bool)
      requires Valid()
      modifies this, player, camera, set e | e in enemies
      ensures Valid() && Snapshot(running) == Run(old(Snapshot(true)), inputs)
    {
      ghost var w0 := Snapshot(true);
      running := true;
      var i := 0;
      while running && i < |inputs|
        invariant 0 <= i <= |inputs| && Valid()
        invariant player == old(player) || fresh(player)
        invariant camera == old(camera) || fresh(camera)
        invariant forall e :: e in enemies ==> e in old(enemies) || fresh(e)
        invariant Run(w0, inputs) == Run(Snapshot(running), inputs[i..])
      {
        assert inputs[i..][1..] == inputs[i + 1..];
        running := Frame(inputs[i]);
        i := i + 1;
      }
    }
  }
}
