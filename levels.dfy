/**
 * The level data each game script builds at start-up: its platform
 * configurations and enemy spawn points, and the loops that turn them into
 * platform records and enemy objects.
 */
module Levels {
  import opened Constants
  import opened Geometry
  import opened Enemies

  /** One `(x, y, width)` platform configuration. */
  datatype PlatformSpec = PlatformSpec(x: int, y: int, width: int)

  /** One enemy spawn point. */
  datatype Spot = Spot(x: int, y: int)

  /** The enemy constructor's fixed arguments in one script. */
  datatype EnemyKind = EnemyKind(width: int, height: int, speed: int, range: int)

  /** `Platform(x, y, width)`: the height is the script's fixed platform height. */
  function PlatformOf(c: PlatformSpec, height: int): Box
  {
    Box(c.x, c.y as real, c.width, height)
  }

  /** The platform list built from a configuration list, in order. */
  function PlatformsOf(cs: seq<PlatformSpec>, height: int): (bs: seq<Box>)
    ensures |bs| == |cs|
    ensures forall i :: 0 <= i < |cs| ==> bs[i] == PlatformOf(cs[i], height)
  {
    seq(|cs|, i requires 0 <= i < |cs| => PlatformOf(cs[i], height))
  }

  /** The enemies spawned at the given points, in order, the k-th one moving by the k-th mode. */
  function SpawnsAt(spots: seq<Spot>, kind: EnemyKind, modes: seq<Mode>): (es: seq<EnemyState>)
    requires |modes| == |spots|
    ensures |es| == |spots|
    ensures forall k :: 0 <= k < |spots| ==>
      es[k] == Spawn(spots[k].x, spots[k].y as real, kind.width, kind.height, kind.speed, kind.range, modes[k])
  {
    seq(|spots|, k requires 0 <= k < |spots| =>
      Spawn(spots[k].x, spots[k].y as real, kind.width, kind.height, kind.speed, kind.range, modes[k]))
  }

  /** The modes of a level whose enemies all patrol horizontally. */
  function AllHorizontal(n: nat): (ms: seq<Mode>)
    ensures |ms| == n && forall k :: 0 <= k < n ==> ms[k] == Horizontal
  {
    seq(n, _ => Horizontal)
  }

  /** Every freshly spawned enemy is alive, so a new level holds one bounty per spawn point. */
  lemma {:induction false} SpawnsAllAlive(spots: seq<Spot>, kind: EnemyKind, modes: seq<Mode>)
    requires |modes| == |spots|
    ensures AliveCount(SpawnsAt(spots, kind, modes)) == |spots|
    decreases |spots|
  {
    if spots != [] {
      var n := |spots| - 1;
      SpawnsAllAlive(spots[..n], kind, modes[..n]);
      assert SpawnsAt(spots, kind, modes)[..n] == SpawnsAt(spots[..n], kind, modes[..n]);
    }
  }

  /** The platform loop of main.py and game_new.py `init_game_objects`: one `append` per configuration. */
  method BuildPlatforms(cs: seq<PlatformSpec>, height: int) returns (platforms: seq<Box>)
    ensures platforms == PlatformsOf(cs, height)
  {
    platforms := [];
    var i := 0;
    while i < |cs|
      invariant 0 <= i <= |cs|
      invariant platforms == PlatformsOf(cs[..i], height)
    {
      platforms := platforms + [PlatformOf(cs[i], height)];
      i := i + 1;
      assert cs[..i] == cs[..i - 1] + [cs[i - 1]];
    }
    assert cs[..|cs|] == cs;
  }

  /** A fresh enemy object per spawn point, in order. */
  method SpawnEnemies(spots: seq<Spot>, kind: EnemyKind, modes: seq<Mode>) returns (enemies: seq<Enemy>)
    requires |modes| == |spots|
    ensures Distinct(enemies)
    ensures forall e :: e in enemies ==> fresh(e)
    ensures Views(enemies) == SpawnsAt(spots, kind, modes)
  {
    enemies := [];
    var i := 0;
    while i < |spots|
      invariant 0 <= i <= |spots| && |enemies| == i
      invariant Distinct(enemies)
      invariant forall e :: e in enemies ==> fresh(e)
      invariant forall k :: 0 <= k < i ==> enemies[k].View() == SpawnsAt(spots, kind, modes)[k]
    {
      var e := new Enemy(spots[i].x, spots[i].y as real, kind.width, kind.height, kind.speed, kind.range, modes[i]);
      enemies := enemies + [e];
      i := i + 1;
    }
  }

  // ---------------------------------------------------------------------------
  // main.py and game_new.py

  /** `platform_configs`: six ground platforms with gaps, then nine floating ones. */
  const CityPlatforms: seq<PlatformSpec> := [
    PlatformSpec(0, HEIGHT - 40, 600),
    PlatformSpec(700, HEIGHT - 40, 400),
    PlatformSpec(1200, HEIGHT - 40, 500),
    PlatformSpec(1800, HEIGHT - 40, 400),
    PlatformSpec(2300, HEIGHT - 40, 400),
    PlatformSpec(2800, HEIGHT - 40, 400),
    PlatformSpec(300, HEIGHT - 150, 200),
    PlatformSpec(600, HEIGHT - 250, 200),
    PlatformSpec(900, HEIGHT - 200, 200),
    PlatformSpec(1200, HEIGHT - 300, 200),
    PlatformSpec(1500, HEIGHT - 250, 200),
    PlatformSpec(1800, HEIGHT - 350, 200),
    PlatformSpec(2100, HEIGHT - 200, 200),
    PlatformSpec(2400, HEIGHT - 300, 200),
    PlatformSpec(2700, HEIGHT - 250, 200)
  ]

  /** The seven enemy positions, shared with both platformer scripts. */
  const LevelSpots: seq<Spot> := [
    Spot(400, HEIGHT - 80),
    Spot(800, HEIGHT - 190),
    Spot(1200, HEIGHT - 80),
    Spot(1600, HEIGHT - 290),
    Spot(2000, HEIGHT - 80),
    Spot(2400, HEIGHT - 340),
    Spot(2800, HEIGHT - 290)
  ]

  /** src/enemies/enemy.py: `ENEMY_WIDTH` x `ENEMY_HEIGHT`, `ENEMY_SPEED`, `ENEMY_PATROL_RANGE`; also game_with_textures.py's enemy. */
  const SrcEnemy := EnemyKind(ENEMY_WIDTH, ENEMY_HEIGHT, ENEMY_SPEED, ENEMY_PATROL_RANGE)

  // ---------------------------------------------------------------------------
  // platformer/game_new.py and platformer/game.py

  /** Four long ground platforms, then the same nine floating ones; every platform is 20 high. */
  const PlatformerPlatforms: seq<PlatformSpec> := [
    PlatformSpec(0, HEIGHT - 40, 800),
    PlatformSpec(900, HEIGHT - 40, 800),
    PlatformSpec(1800, HEIGHT - 40, 800),
    PlatformSpec(2700, HEIGHT - 40, 500),
    PlatformSpec(300, HEIGHT - 150, 200),
    PlatformSpec(600, HEIGHT - 250, 200),
    PlatformSpec(900, HEIGHT - 200, 200),
    PlatformSpec(1200, HEIGHT - 300, 200),
    PlatformSpec(1500, HEIGHT - 250, 200),
    PlatformSpec(1800, HEIGHT - 350, 200),
    PlatformSpec(2100, HEIGHT - 200, 200),
    PlatformSpec(2400, HEIGHT - 300, 200),
    PlatformSpec(2700, HEIGHT - 250, 200)
  ]

  const PlatformerPlatformHeight := 20

  /** platformer/game_new.py's 30 x 30 enemy with range 100. */
  const PatrolEnemy := EnemyKind(30, 30, 2, 100)

  /** platformer/game.py's 30 x 30 enemy with range 150. */
  const ModeEnemy := EnemyKind(30, 30, 2, 150)

  // ---------------------------------------------------------------------------
  // game_with_textures.py

  /** Four buildings; `Platform` ignores its width argument, so each is `PLATFORM_WIDTH` x `PLATFORM_HEIGHT`. */
  const TexturedPlatforms: seq<PlatformSpec> := [
    PlatformSpec(100, HEIGHT - 150, PLATFORM_WIDTH),
    PlatformSpec(400, HEIGHT - 250, PLATFORM_WIDTH),
    PlatformSpec(700, HEIGHT - 350, PLATFORM_WIDTH),
    PlatformSpec(200, HEIGHT - 450, PLATFORM_WIDTH)
  ]

  const TexturedSpots: seq<Spot> := [Spot(100, HEIGHT - 200), Spot(600, HEIGHT - 400)]

  // ---------------------------------------------------------------------------
  // game.py

  const ScreenPlatforms: seq<PlatformSpec> := [
    PlatformSpec(100, HEIGHT - 100, 200),
    PlatformSpec(400, HEIGHT - 200, 200),
    PlatformSpec(700, HEIGHT - 300, 200),
    PlatformSpec(200, HEIGHT - 400, 200)
  ]

  const ScreenSpots: seq<Spot> := [Spot(100, HEIGHT - 150), Spot(600, HEIGHT - 350)]

  /** game.py's chasing 30 x 30 enemy; it has no patrol range, so the range field is 0 and unused. */
  const ChaseEnemy := EnemyKind(30, 30, 2, 0)
}
