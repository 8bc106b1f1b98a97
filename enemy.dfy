/**
 * Enemies: the record every variant keeps (src/enemies/enemy.py and the Enemy
 * classes repeated in game_with_textures.py, platformer/game_new.py, platformer/game.py and game.py) and
 * the three movement rules they use.
 */
module Enemies {
  import opened Geometry

  /** platformer/game.py draws each enemy's movement kind at random; here it is a constructor argument. */
  datatype Mode = Horizontal | Vertical

  datatype EnemyState = EnemyState(
    x: int, y: real, width: int, height: int, speed: int,
    direction: int, alive: bool,
    initialX: int, initialY: real, patrolRange: int,
    mode: Mode, pathPos: real)
  {
    function Bounds(): Box { Box(x, y, width, height) }
  }

  function Abs(v: int): int { if v < 0 then -v else v }

  /** A freshly constructed enemy: alive, heading right, anchored where it spawns. */
  function Spawn(x: int, y: real, width: int, height: int, speed: int, range: int, mode: Mode): (e: EnemyState)
    ensures e.alive && e.direction == 1 && e.pathPos == 0.0
    ensures e.x == e.initialX == x && e.y == e.initialY == y
    ensures e.Bounds() == Box(x, y, width, height) && e.speed == speed && e.patrolRange == range && e.mode == mode
  {
    EnemyState(x, y, width, height, speed, 1, true, x, y, range, mode, 0.0)
  }

  // ---------------------------------------------------------------------------
  // Clamp-at-bound patrol (src/enemies/enemy.py): move, then clamp to the band.

  /** `Enemy.move` of src/enemies/enemy.py. Only `x` and `direction` change, and only for a live enemy. */
  function ClampMove(e: EnemyState): (r: EnemyState)
    ensures !e.alive ==> r == e
    ensures r == e.(x := r.x, direction := r.direction)
    ensures e.alive && e.patrolRange >= 0 ==> e.initialX - e.patrolRange <= r.x <= e.initialX + e.patrolRange
    ensures (e.direction == 1 || e.direction == -1) ==> (r.direction == 1 || r.direction == -1)
    ensures e.alive && e.x + e.speed * e.direction > e.initialX + e.patrolRange
      ==> r.x == e.initialX + e.patrolRange && r.direction == -1
    ensures e.alive && e.patrolRange >= 0 && e.x + e.speed * e.direction < e.initialX - e.patrolRange
      ==> r.x == e.initialX - e.patrolRange && r.direction == 1
    ensures e.alive && e.initialX - e.patrolRange <= e.x + e.speed * e.direction <= e.initialX + e.patrolRange
      ==> r == e.(x := e.x + e.speed * e.direction)
  {
    if !e.alive then e
    else
      var nx := e.x + e.speed * e.direction;
      if nx > e.initialX + e.patrolRange then e.(x := e.initialX + e.patrolRange, direction := -1)
      else if nx < e.initialX - e.patrolRange then e.(x := e.initialX - e.patrolRange, direction := 1)
      else e.(x := nx)
  }

  /** `n` consecutive clamp-patrol moves. */
  function ClampMoves(e: EnemyState, n: nat): EnemyState
    decreases n
  {
    if n == 0 then e else ClampMoves(ClampMove(e), n - 1)
  }

  /** Inside the band, an enemy heading right advances by `speed` per move until the step would leave the band. */
  lemma {:induction false} ClampPatrolOutbound(e: EnemyState, k: nat)
    requires e.alive && e.direction == 1 && e.speed > 0
    requires e.initialX - e.patrolRange <= e.x
    requires e.x + k * e.speed <= e.initialX + e.patrolRange
    ensures ClampMoves(e, k) == e.(x := e.x + k * e.speed)
    decreases k
  {
    if k > 0 {
      var e1 := ClampMove(e);
      assert e1 == e.(x := e.x + e.speed);
      assert e1.x + (k - 1) * e1.speed == e.x + k * e.speed;
      ClampPatrolOutbound(e1, k - 1);
    }
  }

  /**
   * From spawn with speed 2 and range 150: after 75 moves the enemy stands on the
   * right bound still heading right; the 76th move keeps it there and turns it round.
   */
  lemma ClampPatrolTurnsAtBound(x: int, y: real, width: int, height: int)
    ensures ClampMoves(Spawn(x, y, width, height, 2, 150, Horizontal), 75).x == x + 150
    ensures ClampMoves(Spawn(x, y, width, height, 2, 150, Horizontal), 75).direction == 1
    ensures ClampMoves(Spawn(x, y, width, height, 2, 150, Horizontal), 76).x == x + 150
    ensures ClampMoves(Spawn(x, y, width, height, 2, 150, Horizontal), 76).direction == -1
  {
    var e := Spawn(x, y, width, height, 2, 150, Horizontal);
    ClampPatrolOutbound(e, 75);
    ClampMovesSplit(e, 75, 1);
  }

  lemma {:induction false} ClampMovesSplit(e: EnemyState, m: nat, n: nat)
    ensures ClampMoves(e, m + n) == ClampMoves(ClampMoves(e, m), n)
    decreases m
  {
    if m > 0 {
      ClampMovesSplit(ClampMove(e), m - 1, n);
    }
  }

  /** However many moves are made, a live enemy with a non-negative range stays in its band and keeps a unit direction. */
  lemma {:induction false} ClampMovesStayInBand(e: EnemyState, n: nat)
    requires e.alive && e.patrolRange >= 0 && (e.direction == 1 || e.direction == -1)
    requires e.initialX - e.patrolRange <= e.x <= e.initialX + e.patrolRange
    ensures var r := ClampMoves(e, n);
      r.initialX - r.patrolRange <= r.x <= r.initialX + r.patrolRange && (r.direction == 1 || r.direction == -1)
      && r == e.(x := r.x, direction := r.direction)
    decreases n
  {
    if n > 0 {
      ClampMovesStayInBand(ClampMove(e), n - 1);
    }
  }

  // ---------------------------------------------------------------------------
  // Check-then-move patrol (game_with_textures.py, platformer/game_new.py, platformer/game.py): turn round
  // once beyond the range, then step.

  /** `Enemy.move` of the check-then-move variants: only `x` and `direction` change, and only for a live enemy. */
  function PatrolMove(e: EnemyState): (r: EnemyState)
    ensures !e.alive ==> r == e
    ensures r == e.(x := r.x, direction := r.direction)
    ensures e.alive && Abs(e.x - e.initialX) <= e.patrolRange ==> r == e.(x := e.x + e.speed * e.direction)
    ensures e.alive && Abs(e.x - e.initialX) > e.patrolRange
      ==> r.direction == -e.direction && r.x == e.x - e.speed * e.direction
  {
    if !e.alive then e
    else
      var d := if Abs(e.x - e.initialX) > e.patrolRange then -e.direction else e.direction;
      e.(x := e.x + e.speed * d, direction := d)
  }

  /**
   * What a check-then-move patroller always satisfies: it is never more than one
   * step outside its range, and once outside it is heading back only after the
   * turn, i.e. beyond the right edge it is still heading right and beyond the left
   * edge still heading left.
   */
  ghost predicate PatrolInvariant(e: EnemyState)
  {
    (e.direction == 1 || e.direction == -1)
    && -(e.patrolRange + e.speed) <= e.x - e.initialX <= e.patrolRange + e.speed
    && (e.x - e.initialX > e.patrolRange ==> e.direction == 1)
    && (e.x - e.initialX < -e.patrolRange ==> e.direction == -1)
  }

  lemma SpawnSatisfiesPatrolInvariant(x: int, y: real, width: int, height: int, speed: int, range: int, mode: Mode)
    requires speed >= 0 && range >= 0
    ensures PatrolInvariant(Spawn(x, y, width, height, speed, range, mode))
  {
  }

  lemma PatrolMovePreservesInvariant(e: EnemyState)
    requires e.speed > 0 && e.patrolRange >= 0
    requires PatrolInvariant(e)
    ensures PatrolInvariant(PatrolMove(e))
  {
  }

  function PatrolMoves(e: EnemyState, n: nat): EnemyState
    decreases n
  {
    if n == 0 then e else PatrolMoves(PatrolMove(e), n - 1)
  }

  /** From any state satisfying the invariant (spawn included), `|x - initial_x| <= patrol_range + speed` forever. */
  lemma {:induction false} PatrolMovesBounded(e: EnemyState, n: nat)
    requires e.speed > 0 && e.patrolRange >= 0
    requires PatrolInvariant(e)
    ensures PatrolInvariant(PatrolMoves(e, n))
    ensures Abs(PatrolMoves(e, n).x - e.initialX) <= e.patrolRange + e.speed
    ensures PatrolMoves(e, n) == e.(x := PatrolMoves(e, n).x, direction := PatrolMoves(e, n).direction)
    decreases n
  {
    if n > 0 {
      PatrolMovePreservesInvariant(e);
      PatrolMovesBounded(PatrolMove(e), n - 1);
    }
  }

  // ---------------------------------------------------------------------------
  // Movement by mode (platformer/game.py): horizontal patrol, or a vertical
  // bob driven by `math.sin`, which the caller supplies as `sin`.

  function ModeMove(e: EnemyState, sin: real -> real): (r: EnemyState)
    ensures !e.alive ==> r == e
    ensures e.mode == Horizontal ==> r == PatrolMove(e)
    ensures e.mode == Vertical ==> r.x == e.x && r.direction == e.direction && r.alive == e.alive
    ensures e.mode == Vertical && e.alive ==> r == e.(pathPos := e.pathPos + 0.02, y := r.y)
  {
    if !e.alive then e
    else if e.mode == Horizontal then PatrolMove(e)
    else
      var p := e.pathPos + 0.02;
      e.(pathPos := p, y := e.initialY + sin(p) * 100.0)
  }

  /** Whatever the mode and whatever `sin` returns, a move keeps the patrol invariant on `x`. */
  lemma ModeMovePreservesInvariant(e: EnemyState, sin: real -> real)
    requires e.speed > 0 && e.patrolRange >= 0
    requires PatrolInvariant(e)
    ensures PatrolInvariant(ModeMove(e, sin))
  {
    PatrolMovePreservesInvariant(e);
  }

  // ---------------------------------------------------------------------------
  // Chase (game.py): step towards the player's x; ties step left.

  function ChaseMove(e: EnemyState, targetX: int): (r: EnemyState)
    ensures r == e.(x := r.x)
    ensures r.x == e.x + e.speed || r.x == e.x - e.speed
    ensures e.speed >= 0 && Abs(e.x - targetX) >= e.speed ==> Abs(r.x - targetX) == Abs(e.x - targetX) - e.speed
    ensures e.speed >= 0 && Abs(e.x - targetX) < e.speed ==> Abs(r.x - targetX) <= e.speed
  {
    e.(x := if e.x < targetX then e.x + e.speed else e.x - e.speed)
  }

  function ChaseMoves(e: EnemyState, targetX: int, n: nat): EnemyState
    decreases n
  {
    if n == 0 then e else ChaseMoves(ChaseMove(e, targetX), targetX, n - 1)
  }

  /**
   * Against a target that stays put, each move closes the gap by `speed` until the
   * chaser is within one step, and from then on it stays within one step.
   */
  lemma {:induction false} ChaseCloses(e: EnemyState, targetX: int, n: nat)
    requires e.speed > 0
    ensures Abs(ChaseMoves(e, targetX, n).x - targetX) <= Max(Abs(e.x - targetX) - n * e.speed, e.speed)
    ensures ChaseMoves(e, targetX, n) == e.(x := ChaseMoves(e, targetX, n).x)
    decreases n
  {
    if n > 0 {
      var e1 := ChaseMove(e, targetX);
      ChaseCloses(e1, targetX, n - 1);
      StepsDistance(n, e.speed);
    }
  }

  /** `n` steps of `speed` are one step more than `n - 1` of them. */
  lemma StepsDistance(n: nat, speed: int)
    requires n > 0 && speed > 0
    ensures (n - 1) * speed == n * speed - speed && (n - 1) * speed >= 0
  {
  }

  function Max(a: int, b: int): int { if a >= b then a else b }

  // ---------------------------------------------------------------------------
  // Moving every enemy of a level.

  /** Which `Enemy.move` a level uses. */
  datatype Movement = Clamped | Patrolled | ByMode(sin: real -> real) | Chasing(targetX: int)

  function MoveBy(m: Movement, e: EnemyState): (r: EnemyState)
    ensures r.alive == e.alive
    ensures m.Clamped? ==> r == ClampMove(e)
    ensures m.Patrolled? ==> r == PatrolMove(e)
    ensures m.ByMode? ==> r == ModeMove(e, m.sin)
    ensures m.Chasing? ==> r == ChaseMove(e, m.targetX)
  {
    match m
    case Clamped => ClampMove(e)
    case Patrolled => PatrolMove(e)
    case ByMode(sin) => ModeMove(e, sin)
    case Chasing(t) => ChaseMove(e, t)
  }

  /** `for enemy in enemies: enemy.move(...)`, on values. */
  function MoveAll(m: Movement, es: seq<EnemyState>): (rs: seq<EnemyState>)
    ensures |rs| == |es|
    ensures forall k :: 0 <= k < |es| ==> rs[k] == MoveBy(m, es[k])
  {
    seq(|es|, k requires 0 <= k < |es| => MoveBy(m, es[k]))
  }

  /** How many enemies of a list are alive. */
  function AliveCount(es: seq<EnemyState>): nat
    decreases |es|
  {
    if es == [] then 0 else AliveCount(es[..|es| - 1]) + (if es[|es| - 1].alive then 1 else 0)
  }

  /** Lists with the same alive flags have the same number of live enemies. */
  lemma {:induction false} AliveCountByFlags(a: seq<EnemyState>, b: seq<EnemyState>)
    requires |a| == |b| && forall k :: 0 <= k < |a| ==> a[k].alive == b[k].alive
    ensures AliveCount(a) == AliveCount(b)
    decreases |a|
  {
    if a != [] {
      var n := |a| - 1;
      assert forall k :: 0 <= k < n ==> a[..n][k] == a[k] && b[..n][k] == b[k];
      AliveCountByFlags(a[..n], b[..n]);
    }
  }

  /** Moving enemies never kills or revives one. */
  lemma MoveAllKeepsAlive(m: Movement, es: seq<EnemyState>)
    ensures AliveCount(MoveAll(m, es)) == AliveCount(es)
  {
    AliveCountByFlags(MoveAll(m, es), es);
  }
  /** Every enemy of a list is a check-then-move patroller with a positive speed and a range, inside its invariant. */
  ghost predicate AllPatrolling(es: seq<EnemyState>)
  {
    forall k :: 0 <= k < |es| ==> es[k].speed > 0 && es[k].patrolRange >= 0 && PatrolInvariant(es[k])
  }

  /** The check-then-move loop, in either mode of platformer/game.py, keeps every enemy inside its invariant. */
  lemma MoveAllKeepsPatrol(m: Movement, es: seq<EnemyState>)
    requires m.Patrolled? || m.ByMode?
    requires AllPatrolling(es)
    ensures AllPatrolling(MoveAll(m, es)) && SameAnchors(es, MoveAll(m, es))
  {
    forall k | 0 <= k < |es|
      ensures PatrolInvariant(MoveBy(m, es[k]))
    {
      if m.Patrolled? {
        PatrolMovePreservesInvariant(es[k]);
      } else {
        ModeMovePreservesInvariant(es[k], m.sin);
      }
    }
  }

  /** Only the alive flags differ, so the patrol invariant and the anchors carry over. */
  lemma KillingKeepsPatrol(es: seq<EnemyState>, rs: seq<EnemyState>)
    requires AllPatrolling(es) && |rs| == |es|
    requires forall k :: 0 <= k < |es| ==> rs[k] == es[k].(alive := rs[k].alive)
    ensures AllPatrolling(rs) && SameAnchors(es, rs)
  {
  }

  /** The same enemies, moved: same anchors, speeds and ranges. */
  predicate SameAnchors(es: seq<EnemyState>, rs: seq<EnemyState>)
  {
    |rs| == |es| && forall k :: 0 <= k < |es| ==>
      rs[k].initialX == es[k].initialX && rs[k].speed == es[k].speed && rs[k].patrolRange == es[k].patrolRange
  }


  // ---------------------------------------------------------------------------

  class Enemy {
    var x: int
    var y: real
    const width: int
    const height: int
    const speed: int
    var direction: int
    var alive: bool
    const initialX: int
    const initialY: real
    const patrolRange: int
    const mode: Mode
    var pathPos: real

    function View(): EnemyState
      reads this
    {
      EnemyState(x, y, width, height, speed, direction, alive, initialX, initialY, patrolRange, mode, pathPos)
    }

    constructor (x0: int, y0: real, width0: int, height0: int, speed0: int, range: int, mode0: Mode)
      ensures View() == Spawn(x0, y0, width0, height0, speed0, range, mode0)
    {
      x, y := x0, y0;
      width, height := width0, height0;
      speed := speed0;
      direction := 1;
      alive := true;
      initialX, initialY := x0, y0;
      patrolRange := range;
      mode := mode0;
      pathPos := 0.0;
    }

    /** src/enemies/enemy.py `move`: step, then clamp to the band, turning round at its edge. */
    method MoveClamped()
      modifies this
      ensures View() == ClampMove(old(View()))
    {
      if !alive {
        return;
      }
      x := x + speed * direction;
      if x > initialX + patrolRange {
        x := initialX + patrolRange;
        direction := -1;
      } else if x < initialX - patrolRange {
        x := initialX - patrolRange;
        direction := 1;
      }
    }

    /** game_with_textures.py and platformer/game_new.py `move`: turn round once out of range, then step. */
    method MovePatrol()
      modifies this
      ensures View() == PatrolMove(old(View()))
    {
      if !alive {
        return;
      }
      if Abs(x - initialX) > patrolRange {
        direction := direction * -1;
      }
      x := x + speed * direction;
    }

    /** platformer/game.py `move`: patrol in horizontal mode, bob along `sin` in vertical mode. */
    method MoveByMode(sin: real -> real)
      modifies this
      ensures View() == ModeMove(old(View()), sin)
    {
      if !alive {
        return;
      }
      if mode == Horizontal {
        MovePatrol();
      } else {
        pathPos := pathPos + 0.02;
        y := initialY + sin(pathPos) * 100.0;
      }
    }

    /** The `move` a level uses. */
    method Move(m: Movement)
      modifies this
      ensures View() == MoveBy(m, old(View()))
    {
      match m
      case Clamped => MoveClamped();
      case Patrolled => MovePatrol();
      case ByMode(sin) => MoveByMode(sin);
      case Chasing(t) => MoveChase(t);
    }

    /** game.py `move`: chase the player's x; there is no alive flag to consult. */
    method MoveChase(targetX: int)
      modifies this
      ensures View() == ChaseMove(old(View()), targetX)
    {
      if x < targetX {
        x := x + speed;
      } else {
        x := x - speed;
      }
    }
  }

  /** The values of a list of enemy objects. */
  ghost function Views(es: seq<Enemy>): (vs: seq<EnemyState>)
    reads set e | e in es
    ensures |vs| == |es|
    ensures forall k :: 0 <= k < |es| ==> vs[k] == es[k].View()
  {
    if es == [] then [] else Views(es[..|es| - 1]) + [es[|es| - 1].View()]
  }

  /** No enemy object appears twice in the list, so updating one leaves the others alone. */
  ghost predicate Distinct(es: seq<Enemy>)
  {
    forall i, j :: 0 <= i < j < |es| ==> es[i] != es[j]
  }

  /** The enemy-moving loop of a frame. */
  method MoveEnemies(m: Movement, enemies: seq<Enemy>)
    requires Distinct(enemies)
    modifies enemies
    ensures Views(enemies) == MoveAll(m, old(Views(enemies)))
  {
    ghost var before := Views(enemies);
    var i := 0;
    while i < |enemies|
      invariant 0 <= i <= |enemies|
      invariant forall k :: 0 <= k < i ==> enemies[k].View() == MoveBy(m, before[k])
      invariant forall k :: i <= k < |enemies| ==> enemies[k].View() == before[k]
    {
      enemies[i].Move(m);
      i := i + 1;
    }
  }
}
