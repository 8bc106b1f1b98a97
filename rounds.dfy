/**
 * What one frame of every game script shares: the per-frame input, the game
 * states, and the physics part of the frame step (horizontal keys, `move`,
 * the platform loop, the enemy loop, the contact loop), parameterised by what
 * differs between the scripts.
 */
module Rounds {
  import opened Geometry
  import opened Cameras
  import opened PlayerModel
  import opened Players
  import opened Enemies
  import opened Landing
  import opened EnemyContacts

  datatype Option<T> = None | Some(value: T)

  /** `MENU`, `PLAYING`, `GAME_OVER`, `DYING` of src/constants.py and platformer/game.py. */
  datatype GameState = Menu | Playing | GameOver | Dying

  /** A mouse click: position and button number. */
  datatype Click = Click(x: int, y: int, button: int)

  /**
   * The events and key states of one frame, in the order they are handled:
   * window close, mouse click, jump key, attack key; `left` and `right` are the
   * arrow keys held while the frame is stepped.
   */
  datatype Input = Input(quit: bool, click: Option<Click>, jumpKey: bool, attackKey: bool, left: bool, right: bool)

  /** Everything a frame reads and writes. */
  datatype World = World(player: PlayerState, enemies: seq<EnemyState>, platforms: seq<Box>,
                         cameraX: int, state: GameState, running: bool)

  /** The score plus 100 for every enemy still alive. */
  function Bounty(w: World): int
  {
    w.player.score + 100 * AliveCount(w.enemies)
  }

  /** How a script moves its enemies: inside the contact loop (main.py), all before it, or chasing the player (game.py). */
  datatype Movers = InsideContacts | Before(m: Movement) | ChasePlayer

  /** What differs between the physics steps of the scripts. */
  datatype StepConfig = StepConfig(tracksFacing: bool, rule: MoveRule, resetGround: bool, movers: Movers, contact: ContactRule)

  /** The enemies after the enemy-moving loop, for a player at `px`. */
  function EnemiesMoved(movers: Movers, px: int, es: seq<EnemyState>): (rs: seq<EnemyState>)
    ensures |rs| == |es|
  {
    match movers
    case InsideContacts => es
    case Before(m) => MoveAll(m, es)
    case ChasePlayer => MoveAll(Chasing(px), es)
  }

  /** The player after the keys, `move` and the platform loop. */
  function Landed(cfg: StepConfig, inp: Input, p: PlayerState, plats: seq<Box>): PlayerState
  {
    var p1 := Moved(Steered(p, inp.left, inp.right, cfg.tracksFacing), cfg.rule);
    LandAll(if cfg.resetGround then p1.(onGround := false) else p1, plats)
  }

  /** The physics part of a frame. */
  function Physics(cfg: StepConfig, inp: Input, p: PlayerState, es: seq<EnemyState>, plats: seq<Box>): (o: Outcome)
    ensures |o.enemies| == |es|
  {
    var q := Landed(cfg, inp, p, plats);
    Contacts(cfg.contact, q, EnemiesMoved(cfg.movers, q.x, es))
  }

  /** The physics step keeps the player inside the horizontal bound of its `move`. */
  lemma PhysicsKeepsXInBounds(cfg: StepConfig, inp: Input, p: PlayerState, es: seq<EnemyState>, plats: seq<Box>)
    requires 0 <= p.width <= cfg.rule.xLimit && !(cfg.rule.deadSkips && p.isDead)
    ensures 0 <= Physics(cfg, inp, p, es, plats).player.x <= cfg.rule.xLimit - p.width
  {
    var q := Landed(cfg, inp, p, plats);
    ContactsKeepPlace(cfg.contact, q, EnemiesMoved(cfg.movers, q.x, es));
  }

  /** No part of the physics step starts or ends an attack. */
  lemma PhysicsKeepsAttack(cfg: StepConfig, inp: Input, p: PlayerState, es: seq<EnemyState>, plats: seq<Box>)
    ensures Physics(cfg, inp, p, es, plats).player.isAttacking == p.isAttacking
  {
    var q := Landed(cfg, inp, p, plats);
    ContactsKeepPlace(cfg.contact, q, EnemiesMoved(cfg.movers, q.x, es));
  }

  /** The score only changes by 100 per enemy killed during the step. */
  lemma PhysicsScore(cfg: StepConfig, inp: Input, p: PlayerState, es: seq<EnemyState>, plats: seq<Box>)
    ensures var q := Landed(cfg, inp, p, plats); var es1 := EnemiesMoved(cfg.movers, q.x, es);
      Physics(cfg, inp, p, es, plats).player.score == p.score + 100 * Kills(es1, Physics(cfg, inp, p, es, plats).enemies)
  {
    var q := Landed(cfg, inp, p, plats);
    ContactsScore(cfg.contact, q, EnemiesMoved(cfg.movers, q.x, es));
  }

  /** Score plus the bounty of the live enemies is the same after the physics step. */
  lemma PhysicsConservesBounty(cfg: StepConfig, inp: Input, p: PlayerState, es: seq<EnemyState>, plats: seq<Box>)
    ensures var o := Physics(cfg, inp, p, es, plats);
      o.player.score + 100 * AliveCount(o.enemies) == p.score + 100 * AliveCount(es)
  {
    var q := Landed(cfg, inp, p, plats);
    var es1 := EnemiesMoved(cfg.movers, q.x, es);
    BountyConserved(cfg.contact, q, es1);
    match cfg.movers {
      case InsideContacts =>
      case Before(m) => MoveAllKeepsAlive(m, es);
      case ChasePlayer => MoveAllKeepsAlive(Chasing(q.x), es);
    }
  }

  /** With a stomp rule a physics step scores at most one stomp: the bounce leaves the player rising. */
  lemma PhysicsStompsAtMostOnce(cfg: StepConfig, inp: Input, p: PlayerState, es: seq<EnemyState>, plats: seq<Box>)
    requires cfg.contact == ShieldedStomp || cfg.contact == StompOrSide
    requires p.jumpPower <= 0.0
    ensures p.score <= Physics(cfg, inp, p, es, plats).player.score <= p.score + 100
  {
    var q := Landed(cfg, inp, p, plats);
    var es1 := EnemiesMoved(cfg.movers, q.x, es);
    ContactsScore(cfg.contact, q, es1);
    AtMostOneStomp(cfg.contact, q, es1);
  }

  /** Under a floor, the physics step never leaves a player that moves below the floor. */
  lemma PhysicsKeepsAboveFloor(cfg: StepConfig, inp: Input, p: PlayerState, es: seq<EnemyState>, plats: seq<Box>)
    requires cfg.rule.floor && !Frozen(p, cfg.rule)
    ensures Physics(cfg, inp, p, es, plats).player.y <= FloorY(p)
  {
    var q := Landed(cfg, inp, p, plats);
    ContactsKeepPlace(cfg.contact, q, EnemiesMoved(cfg.movers, q.x, es));
  }

  /** Patrolling enemies moved before the contact loop stay within one step of their range. */
  lemma PhysicsKeepsPatrol(cfg: StepConfig, inp: Input, p: PlayerState, es: seq<EnemyState>, plats: seq<Box>)
    requires cfg.movers.Before? && (cfg.movers.m.Patrolled? || cfg.movers.m.ByMode?) && cfg.contact != ShieldedStomp
    requires AllPatrolling(es)
    ensures AllPatrolling(Physics(cfg, inp, p, es, plats).enemies) && SameAnchors(es, Physics(cfg, inp, p, es, plats).enemies)
  {
    var q := Landed(cfg, inp, p, plats);
    var es1 := MoveAll(cfg.movers.m, es);
    MoveAllKeepsPatrol(cfg.movers.m, es);
    ContactsOnlyKill(cfg.contact, q, es1);
    KillingKeepsPatrol(es1, Contacts(cfg.contact, q, es1).enemies);
  }

  /** A quit event clears `running`; the rest of the frame still runs. */
  function Quitted(w: World, inp: Input): (r: World)
    ensures r.running == (w.running && !inp.quit) && r == w.(running := r.running)
  {
    if inp.quit then w.(running := false) else w
  }

  /** The space-bar handler with no game-state gate. */
  function JumpedOnKey(w: World, inp: Input): (r: World)
    ensures r == w.(player := r.player)
    ensures inp.jumpKey ==> r.player == Jumped(w.player)
    ensures !inp.jumpKey ==> r == w
  {
    if inp.jumpKey then w.(player := Jumped(w.player)) else w
  }

  /** Keys, `move` and the platform loop over the Player object. */
  method RunPlayer(cfg: StepConfig, inp: Input, player: Player, plats: seq<Box>)
    modifies player
    ensures player.View() == Landed(cfg, inp, old(player.View()), plats)
  {
    player.Steer(inp.left, inp.right, cfg.tracksFacing);
    player.Move(cfg.rule);
    if cfg.resetGround {
      player.onGround := false;
    }
    ResolvePlatforms(player, plats);
  }

  /** The physics step over the objects, in the order the scripts run it. */
  method RunPhysics(cfg: StepConfig, inp: Input, player: Player, enemies: seq<Enemy>, plats: seq<Box>) returns (hit: bool)
    requires Distinct(enemies)
    modifies player, enemies
    ensures var o := Physics(cfg, inp, old(player.View()), old(Views(enemies)), plats);
      player.View() == o.player && Views(enemies) == o.enemies && hit == o.hit
  {
    ghost var es0 := Views(enemies);
    RunPlayer(cfg, inp, player, plats);
    assert Views(enemies) == es0;
    ghost var q := player.View();
    match cfg.movers {
      case InsideContacts =>
      case Before(m) => MoveEnemies(m, enemies);
      case ChasePlayer => MoveEnemies(Chasing(player.x), enemies);
    }
    assert Views(enemies) == EnemiesMoved(cfg.movers, q.x, es0);
    assert player.View() == q;
    hit := ResolveContacts(cfg.contact, player, enemies);
  }

  /** The physics step followed by `camera.update(player)`, as every scrolling script runs it. */
  method RunPhysicsAndCamera(cfg: StepConfig, inp: Input, player: Player, camera: Camera, enemies: seq<Enemy>, plats: seq<Box>)
    returns (hit: bool)
    requires Distinct(enemies)
    modifies player, camera, set e | e in enemies
    ensures var o := Physics(cfg, inp, old(player.View()), old(Views(enemies)), plats);
      player.View() == o.player && Views(enemies) == o.enemies && hit == o.hit && camera.x == Scroll(o.player.x)
  {
    hit := RunPhysics(cfg, inp, player, enemies, plats);
    ghost var vs := Views(enemies);
    camera.Update(player.x);
    assert Views(enemies) == vs;
  }
}
