/**
 * What main.py and game_new.py share outright: the level `init_game_objects`
 * builds, the menu and game-over buttons, the event handler and the run
 * loop's stop rule. They differ only in the enemy part of `update`.
 */
module City {
  import opened Constants
  import opened Geometry
  import opened Cameras
  import opened PlayerModel
  import opened Players
  import opened Enemies
  import opened Levels
  import opened Rounds

  /** The start button of src/ui/menu.py. */
  const StartButton := Rect(WIDTH / 2 - 100, HEIGHT / 2 + 50, 200, 60)

  /** The retry button of src/ui/game_over.py. */
  const RetryButton := Rect(WIDTH / 2 - 50, HEIGHT / 2, 100, 50)

  /** The player `init_game_objects` creates. */
  const SpawnX := 50
  const SpawnY := (HEIGHT - 100) as real

  /** The world right after `init_game_objects`, in the given game state. */
  function Fresh(state: GameState): World
  {
    World(BasicSpawn(SpawnX, SpawnY), SpawnsAt(LevelSpots, SrcEnemy, AllHorizontal(|LevelSpots|)),
          PlatformsOf(CityPlatforms, PLATFORM_HEIGHT), 0, state, true)
  }

  /** A fresh level: the player at its spawn with no score, 15 platforms, 7 live enemies at their spawn points, camera at 0. */
  lemma FreshLevel(state: GameState)
    ensures var w := Fresh(state);
      w.state == state && w.cameraX == 0 && |w.platforms| == 15 && |w.enemies| == 7
      && w.player.x == 50 && w.player.y == 500.0 && w.player.score == 0 && !w.player.isAttacking
      && w.player.width == PLAYER_WIDTH
      && AliveCount(w.enemies) == 7 && Bounty(w) == 700
      && forall k :: 0 <= k < 7 ==> w.enemies[k].x == w.enemies[k].initialX == LevelSpots[k].x && w.enemies[k].direction == 1
  {
    SpawnsAllAlive(LevelSpots, SrcEnemy, AllHorizontal(|LevelSpots|));
  }

  predicate StartClicked(w: World, inp: Input)
  {
    inp.click.Some? && w.state == Menu && Contains(StartButton, inp.click.value.x, inp.click.value.y)
  }

  predicate RetryClicked(w: World, inp: Input)
  {
    inp.click.Some? && w.state == GameOver && Contains(RetryButton, inp.click.value.x, inp.click.value.y)
  }

  /** A click on the start button in MENU starts play; a click on the retry button in GAME_OVER resets the game. */
  function Clicked(w: World, inp: Input): (r: World)
    ensures StartClicked(w, inp) ==> r == w.(state := Playing)
    ensures RetryClicked(w, inp) ==> r == Fresh(Playing)
    ensures !StartClicked(w, inp) && !RetryClicked(w, inp) ==> r == w
  {
    if StartClicked(w, inp) then w.(state := Playing)
    else if RetryClicked(w, inp) then Fresh(Playing)
    else w
  }

  /** In PLAYING the jump key jumps unless already jumping, and the attack key calls src/player/player.py `start_attack`. */
  function Keyed(w: World, inp: Input): (r: World)
    ensures r == w.(player := r.player)
    ensures w.state != Playing ==> r == w
    ensures w.state == Playing && inp.attackKey ==> r.player.isAttacking
    ensures w.player.isAttacking ==> r.player.isAttacking
    ensures w.state == Playing && inp.jumpKey && !w.player.jumping ==>
      r.player.velY == w.player.jumpPower && r.player.jumping && !r.player.onGround
    ensures !inp.jumpKey && !inp.attackKey ==> r == w
  {
    var p1 := if w.state == Playing && inp.jumpKey then Jumped(w.player) else w.player;
    var p2 := if w.state == Playing && inp.attackKey then AttackForced(p1) else p1;
    w.(player := p2)
  }

  /**
   * `handle_events`: a quit returns at once; otherwise the click, then the
   * keys, and the game keeps running.
   */
  function AfterEvents(w: World, inp: Input): (r: World)
    ensures inp.quit ==> r == w.(running := false)
    ensures !inp.quit ==> r.running
    ensures !inp.quit && StartClicked(w, inp) ==> r.state == Playing
    ensures !inp.quit && RetryClicked(w, inp) ==> r.state == Playing && r.enemies == Fresh(Playing).enemies && r.platforms == Fresh(Playing).platforms && r.player.score == 0
    ensures !StartClicked(w, inp) && !RetryClicked(w, inp) ==> r.state == w.state && r.enemies == w.enemies && r.platforms == w.platforms && r.cameraX == w.cameraX
    ensures !inp.quit && r.state == Playing && inp.attackKey ==> r.player.isAttacking
    ensures !RetryClicked(w, inp) && w.player.isAttacking ==> r.player.isAttacking
    ensures w.state == GameOver && !RetryClicked(w, inp) ==> r == w.(running := !inp.quit)
    ensures !inp.quit && w.state == Playing && inp.jumpKey && !w.player.jumping ==>
      r.player.velY == w.player.jumpPower && r.player.jumping && !r.player.onGround
  {
    if inp.quit then w.(running := false) else Keyed(Clicked(w, inp), inp).(running := true)
  }

  /** The objects `init_game_objects` creates: player, camera, the platform loop and the enemy list. */
  method NewLevel(ghost state: GameState) returns (player: Player, camera: Camera, platforms: seq<Box>, enemies: seq<Enemy>)
    ensures fresh(player) && fresh(camera) && forall e :: e in enemies ==> fresh(e)
    ensures Distinct(enemies)
    ensures World(player.View(), Views(enemies), platforms, camera.x, state, true) == Fresh(state)
  {
    player := new Player.Basic(SpawnX, SpawnY);
    camera := new Camera();
    platforms := BuildPlatforms(CityPlatforms, PLATFORM_HEIGHT);
    enemies := SpawnEnemies(LevelSpots, SrcEnemy, AllHorizontal(|LevelSpots|));
  }
}
