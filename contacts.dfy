/**
 * Player-enemy contact resolution: the enemy loops of main.py, game_new.py,
 * game_with_textures.py, platformer/game_new.py, platformer/game.py and
 * game.py, and the click attack of game_with_textures.py. One loop is a fold
 * of a per-enemy rule over the enemy list, in list order, threading the player.
 */
module EnemyContacts {
  import opened Constants
  import opened Geometry
  import opened PlayerModel
  import opened Enemies
  import opened Players

  /**
   * - ShieldedStomp, main.py: a live enemy moves (clamp patrol), then on overlap the
   *   player stomps it when falling, else loses unless attacking;
   * - StompOrSide, game_new.py and the platformer scripts: feet inside a live enemy
   *   while falling stomps it, any other overlap loses;
   * - DieOnTouch, game_with_textures.py: unless attacking, touching a live enemy
   *   starts the death of a living player;
   * - TouchAny, game.py: touching any enemy loses;
   * - SlashInRange, the click attack of game_with_textures.py.
   */
  datatype ContactRule = ShieldedStomp | StompOrSide | DieOnTouch | TouchAny | SlashInRange

  /** The player and the enemy after one contact test, and whether it ends the round. */
  datatype Touched = Touched(player: PlayerState, enemy: EnemyState, hit: bool)

  /** The result of a whole contact loop. */
  datatype Outcome = Outcome(player: PlayerState, enemies: seq<EnemyState>, hit: bool)

  function Stomped(p: PlayerState): (r: PlayerState)
    ensures r == p.(velY := p.jumpPower, score := p.score + 100)
  {
    p.(velY := p.jumpPower, score := p.score + 100)
  }

  /** The click attack's reach: strictly within `ATTACK_RANGE` on the facing side, less than a player height apart vertically. */
  predicate InSlashRange(p: PlayerState, e: EnemyState)
  {
    ((p.facingRight && p.x < e.x < p.x + ATTACK_RANGE) || (!p.facingRight && p.x - ATTACK_RANGE < e.x < p.x))
    && -(PLAYER_HEIGHT as real) < e.y - p.y < PLAYER_HEIGHT as real
  }

  /** main.py: a live enemy moves first; then an overlap is a stomp when falling and a loss unless attacking. */
  function TouchShielded(p: PlayerState, e: EnemyState): (t: Touched)
    ensures !e.alive ==> t == Touched(p, e, false)
    ensures e.alive ==> t.enemy == ClampMove(e).(alive := t.enemy.alive)
    ensures !t.enemy.alive <==> !e.alive || (Overlaps(p.Bounds(), ClampMove(e).Bounds()) && p.velY > 0.0)
    ensures t.player == if e.alive && !t.enemy.alive then Stomped(p) else p
    ensures t.hit <==> e.alive && Overlaps(p.Bounds(), ClampMove(e).Bounds()) && p.velY <= 0.0 && !p.isAttacking
  {
    if !e.alive then Touched(p, e, false)
    else
      var m := ClampMove(e);
      if Overlaps(p.Bounds(), m.Bounds()) then
        if p.velY > 0.0 then Touched(Stomped(p), m.(alive := false), false)
        else Touched(p, m, !p.isAttacking)
      else Touched(p, m, false)
  }

  /** game_new.py and the platformer scripts: feet inside a live enemy while falling is a stomp, any other overlap a loss. */
  function TouchStomp(p: PlayerState, e: EnemyState): (t: Touched)
    ensures t.enemy == e.(alive := t.enemy.alive)
    ensures !t.enemy.alive <==> !e.alive || (FeetInside(p.Bounds(), e.Bounds()) && p.velY > 0.0)
    ensures t.player == if e.alive && !t.enemy.alive then Stomped(p) else p
    ensures t.hit <==> e.alive && t.enemy.alive && Overlaps(p.Bounds(), e.Bounds())
  {
    if !e.alive then Touched(p, e, false)
    else if FeetInside(p.Bounds(), e.Bounds()) && p.velY > 0.0 then Touched(Stomped(p), e.(alive := false), false)
    else Touched(p, e, Overlaps(p.Bounds(), e.Bounds()))
  }

  /** game_with_textures.py: touching a live enemy while not attacking starts the death of a living player. */
  function TouchDie(p: PlayerState, e: EnemyState): (t: Touched)
    ensures t.enemy == e
    ensures t.hit <==> !p.isAttacking && !p.isDead && e.alive && Overlaps(p.Bounds(), e.Bounds())
    ensures t.player == if t.hit then DeathStarted(p) else p
  {
    if !p.isAttacking && e.alive && Overlaps(p.Bounds(), e.Bounds()) && !p.isDead then Touched(DeathStarted(p), e, true)
    else Touched(p, e, false)
  }

  /** The click attack of game_with_textures.py: a live enemy in reach dies for 100 points. */
  function TouchSlash(p: PlayerState, e: EnemyState): (t: Touched)
    ensures !t.hit
    ensures t.enemy == e.(alive := e.alive && !InSlashRange(p, e))
    ensures t.player == if e.alive && InSlashRange(p, e) then p.(score := p.score + 100) else p
  {
    if e.alive && InSlashRange(p, e) then Touched(p.(score := p.score + 100), e.(alive := false), false)
    else Touched(p, e, false)
  }

  /** The body of each loop, for one enemy. */
  function Touch(rule: ContactRule, p: PlayerState, e: EnemyState): (t: Touched)
  {
    match rule
    case ShieldedStomp => TouchShielded(p, e)
    case StompOrSide => TouchStomp(p, e)
    case DieOnTouch => TouchDie(p, e)
    case TouchAny => Touched(p, e, Overlaps(p.Bounds(), e.Bounds()))
    case SlashInRange => TouchSlash(p, e)
  }

  /** What every rule keeps: dead enemies stay as they are, nobody is revived, and a kill is worth 100. */
  lemma TouchShape(rule: ContactRule, p: PlayerState, e: EnemyState)
    ensures var t := Touch(rule, p, e);
      (!e.alive && rule != TouchAny ==> t.enemy == e)
      && (t.enemy.alive ==> e.alive)
      && t.player.score == p.score + (if e.alive && !t.enemy.alive then 100 else 0)
      && t.player.Bounds() == p.Bounds() && t.player.isAttacking == p.isAttacking && t.player.jumpPower == p.jumpPower
  {
  }

  /** Under a stomp rule one contact either leaves the player alone or bounces it, exactly when it kills. */
  lemma TouchBounce(rule: ContactRule, p: PlayerState, e: EnemyState)
    requires rule == ShieldedStomp || rule == StompOrSide
    ensures var t := Touch(rule, p, e);
      if e.alive && !t.enemy.alive then t.player == Stomped(p) else t.player == p
  {
  }

  /** Enemies alive before and dead after. */
  function Kills(before: seq<EnemyState>, after: seq<EnemyState>): nat
    requires |before| == |after|
    decreases |before|
  {
    if before == [] then 0
    else
      var n := |before| - 1;
      Kills(before[..n], after[..n]) + (if before[n].alive && !after[n].alive then 1 else 0)
  }

  /** The loop over the enemies in list order. */
  function Contacts(rule: ContactRule, p: PlayerState, es: seq<EnemyState>): (o: Outcome)
    ensures |o.enemies| == |es|
    decreases |es|
  {
    if es == [] then Outcome(p, [], false)
    else
      var n := |es| - 1;
      var o0 := Contacts(rule, p, es[..n]);
      var t := Touch(rule, o0.player, es[n]);
      Outcome(t.player, o0.enemies + [t.enemy], o0.hit || t.hit)
  }

  /** Over a whole loop, dead enemies are left exactly as they are (game.py's enemies have no alive flag to consult). */
  lemma {:induction false} ContactsKeepDead(rule: ContactRule, p: PlayerState, es: seq<EnemyState>)
    requires rule != TouchAny
    ensures forall k :: 0 <= k < |es| && !es[k].alive ==> Contacts(rule, p, es).enemies[k] == es[k]
    decreases |es|
  {
    if es != [] {
      var n := |es| - 1;
      ContactsKeepDead(rule, p, es[..n]);
      TouchShape(rule, Contacts(rule, p, es[..n]).player, es[n]);
      assert forall k :: 0 <= k < n ==> es[..n][k] == es[k];
    }
  }

  /** No contact loop revives an enemy. */
  lemma {:induction false} ContactsNeverRevive(rule: ContactRule, p: PlayerState, es: seq<EnemyState>)
    ensures forall k :: 0 <= k < |es| && Contacts(rule, p, es).enemies[k].alive ==> es[k].alive
    decreases |es|
  {
    if es != [] {
      var n := |es| - 1;
      ContactsNeverRevive(rule, p, es[..n]);
      TouchShape(rule, Contacts(rule, p, es[..n]).player, es[n]);
      assert forall k :: 0 <= k < n ==> es[..n][k] == es[k];
    }
  }

  /** Over a whole loop the score grows by exactly 100 per enemy killed. */
  lemma {:induction false} ContactsScore(rule: ContactRule, p: PlayerState, es: seq<EnemyState>)
    ensures Contacts(rule, p, es).player.score == p.score + 100 * Kills(es, Contacts(rule, p, es).enemies)
    decreases |es|
  {
    if es != [] {
      var n := |es| - 1;
      ContactsScore(rule, p, es[..n]);
      var o0 := Contacts(rule, p, es[..n]);
      var o := Contacts(rule, p, es);
      TouchShape(rule, o0.player, es[n]);
      assert o.enemies[..n] == o0.enemies;
    }
  }

  /** No contact moves the player, resizes it, or changes its attack flag or jump speed. */
  lemma {:induction false} ContactsKeepPlace(rule: ContactRule, p: PlayerState, es: seq<EnemyState>)
    ensures var q := Contacts(rule, p, es).player;
      q.Bounds() == p.Bounds() && q.isAttacking == p.isAttacking && q.jumpPower == p.jumpPower
    decreases |es|
  {
    if es != [] {
      var n := |es| - 1;
      ContactsKeepPlace(rule, p, es[..n]);
      TouchShape(rule, Contacts(rule, p, es[..n]).player, es[n]);
    }
  }

  /** Apart from main.py's rule, which moves each enemy inside the loop, a contact loop changes nothing of an enemy but its alive flag. */
  lemma {:induction false} ContactsOnlyKill(rule: ContactRule, p: PlayerState, es: seq<EnemyState>)
    requires rule != ShieldedStomp
    ensures var o := Contacts(rule, p, es);
      forall k :: 0 <= k < |es| ==> o.enemies[k] == es[k].(alive := o.enemies[k].alive)
    decreases |es|
  {
    if es != [] {
      var n := |es| - 1;
      ContactsOnlyKill(rule, p, es[..n]);
      assert forall k :: 0 <= k < n ==> es[..n][k] == es[k];
    }
  }

  /** When no enemy is revived, every live enemy is either still alive or counted as a kill. */
  lemma {:induction false} KillsFromAlive(before: seq<EnemyState>, after: seq<EnemyState>)
    requires |before| == |after|
    requires forall k :: 0 <= k < |after| && after[k].alive ==> before[k].alive
    ensures AliveCount(before) == AliveCount(after) + Kills(before, after)
    decreases |before|
  {
    if before != [] {
      var n := |before| - 1;
      assert forall k :: 0 <= k < n ==> before[..n][k] == before[k] && after[..n][k] == after[k];
      KillsFromAlive(before[..n], after[..n]);
    }
  }

  /**
   * The score and the bounty still on the field (100 per live enemy) add up to
   * the same total before and after any contact loop: each enemy pays out at
   * most once.
   */
  lemma BountyConserved(rule: ContactRule, p: PlayerState, es: seq<EnemyState>)
    ensures var o := Contacts(rule, p, es);
      o.player.score + 100 * AliveCount(o.enemies) == p.score + 100 * AliveCount(es)
  {
    ContactsScore(rule, p, es);
    ContactsNeverRevive(rule, p, es);
    KillsFromAlive(es, Contacts(rule, p, es).enemies);
  }

  /** Splitting off the last enemy, as the fold does, also works for any prefix. */
  lemma ContactsPrefix(rule: ContactRule, p: PlayerState, es: seq<EnemyState>, m: nat)
    requires m < |es|
    ensures var o := Contacts(rule, p, es[..m]); var t := Touch(rule, o.player, es[m]);
      Contacts(rule, p, es[..m + 1]) == Outcome(t.player, o.enemies + [t.enemy], o.hit || t.hit)
  {
    assert es[..m + 1][..m] == es[..m];
  }

  /** Once a contact has ended the round, the rest of the loop cannot undo it. */
  lemma {:induction false} HitSticks(rule: ContactRule, p: PlayerState, es: seq<EnemyState>, m: nat)
    requires m <= |es|
    ensures Contacts(rule, p, es[..m]).hit ==> Contacts(rule, p, es).hit
    decreases |es| - m
  {
    if m < |es| {
      ContactsPrefix(rule, p, es, m);
      HitSticks(rule, p, es, m + 1);
    } else {
      assert es[..m] == es;
    }
  }

  // ---------------------------------------------------------------------------
  // The stomp rules.

  /** Under a stomp rule the player's vertical speed is either untouched (no kill) or the bounce speed (some kill). */
  lemma {:induction false} StompBounce(rule: ContactRule, p: PlayerState, es: seq<EnemyState>)
    requires rule == ShieldedStomp || rule == StompOrSide
    ensures var o := Contacts(rule, p, es);
      o.player == p.(velY := o.player.velY, score := o.player.score)
      && ((Kills(es, o.enemies) == 0 && o.player.velY == p.velY)
          || (Kills(es, o.enemies) >= 1 && o.player.velY == p.jumpPower))
    decreases |es|
  {
    if es != [] {
      var n := |es| - 1;
      StompBounce(rule, p, es[..n]);
      var o0 := Contacts(rule, p, es[..n]);
      var o := Contacts(rule, p, es);
      var t := Touch(rule, o0.player, es[n]);
      TouchBounce(rule, o0.player, es[n]);
      assert o == Outcome(t.player, o0.enemies + [t.enemy], o0.hit || t.hit);
      assert o.enemies[..n] == o0.enemies;
      assert Kills(es, o.enemies) == Kills(es[..n], o0.enemies) + (if es[n].alive && !t.enemy.alive then 1 else 0);
    }
  }

  /** With an upward jump speed, a frame kills at most one enemy by stomping: the bounce stops the fall that a stomp needs. */
  lemma {:induction false} AtMostOneStomp(rule: ContactRule, p: PlayerState, es: seq<EnemyState>)
    requires rule == ShieldedStomp || rule == StompOrSide
    requires p.jumpPower <= 0.0
    ensures Kills(es, Contacts(rule, p, es).enemies) <= 1
    ensures p.velY <= 0.0 ==> Kills(es, Contacts(rule, p, es).enemies) == 0
    decreases |es|
  {
    if es != [] {
      var n := |es| - 1;
      AtMostOneStomp(rule, p, es[..n]);
      StompBounce(rule, p, es[..n]);
      var o0 := Contacts(rule, p, es[..n]);
      var o := Contacts(rule, p, es);
      assert o.enemies[..n] == o0.enemies;
    }
  }

  /** In main.py an attacking player cannot lose to a contact. */
  lemma {:induction false} AttackShields(p: PlayerState, es: seq<EnemyState>)
    requires p.isAttacking
    ensures !Contacts(ShieldedStomp, p, es).hit
    decreases |es|
  {
    if es != [] {
      AttackShields(p, es[..|es| - 1]);
      ContactsKeepPlace(ShieldedStomp, p, es[..|es| - 1]);
    }
  }

  /** Under StompOrSide, once the player is no longer falling it stays so for the rest of the loop. */
  lemma {:induction false} NotFallingStays(p: PlayerState, es: seq<EnemyState>, m: nat, m2: nat)
    requires m <= m2 <= |es|
    requires Contacts(StompOrSide, p, es[..m]).player.velY <= 0.0
    ensures Contacts(StompOrSide, p, es[..m2]).player.velY <= 0.0
    decreases m2 - m
  {
    if m < m2 {
      NotFallingStays(p, es, m, m2 - 1);
      ContactsPrefix(StompOrSide, p, es, m2 - 1);
      var q := Contacts(StompOrSide, p, es[..m2 - 1]).player;
      var t := TouchStomp(q, es[m2 - 1]);
      assert Contacts(StompOrSide, p, es[..m2]).player == t.player;
      assert t.player == q;
    }
  }

  /** A contact that ends the round at any position ends the whole loop's round. */
  lemma HitAt(rule: ContactRule, p: PlayerState, es: seq<EnemyState>, m: nat)
    requires m < |es| && Touch(rule, Contacts(rule, p, es[..m]).player, es[m]).hit
    ensures Contacts(rule, p, es).hit
  {
    ContactsPrefix(rule, p, es, m);
    HitSticks(rule, p, es, m + 1);
  }

  /**
   * game_new.py and the platformer scripts: touching two live enemies in one
   * frame always ends the round, since at most the first of them can be stomped.
   */
  lemma SecondContactEndsGame(p: PlayerState, es: seq<EnemyState>, i: nat, j: nat)
    requires i < j < |es| && p.jumpPower <= 0.0
    requires es[i].alive && es[j].alive
    requires Overlaps(p.Bounds(), es[i].Bounds()) && Overlaps(p.Bounds(), es[j].Bounds())
    ensures Contacts(StompOrSide, p, es).hit
  {
    var qi := Contacts(StompOrSide, p, es[..i]).player;
    ContactsKeepPlace(StompOrSide, p, es[..i]);
    var ti := TouchStomp(qi, es[i]);
    if ti.hit {
      HitAt(StompOrSide, p, es, i);
    } else {
      ContactsPrefix(StompOrSide, p, es, i);
      assert Contacts(StompOrSide, p, es[..i + 1]).player.velY <= 0.0;
      NotFallingStays(p, es, i + 1, j);
      var qj := Contacts(StompOrSide, p, es[..j]).player;
      ContactsKeepPlace(StompOrSide, p, es[..j]);
      assert TouchStomp(qj, es[j]).hit;
      HitAt(StompOrSide, p, es, j);
    }
  }

  // ---------------------------------------------------------------------------
  // Rules without stomps.

  /** game.py: the loop ends the game exactly when the player overlaps some enemy, dead or alive; nothing else changes. */
  lemma {:induction false} TouchAnyHitIff(p: PlayerState, es: seq<EnemyState>)
    ensures var o := Contacts(TouchAny, p, es);
      o.player == p && o.enemies == es
      && (o.hit <==> OverlapsSome(p.Bounds(), es, false))
    decreases |es|
  {
    if es != [] {
      var n := |es| - 1;
      TouchAnyHitIff(p, es[..n]);
      OverlapsSomeSplit(p.Bounds(), es, false);
      var o0 := Contacts(TouchAny, p, es[..n]);
      var t := Touch(TouchAny, p, es[n]);
      assert t == Touched(p, es[n], Overlaps(p.Bounds(), es[n].Bounds()));
      assert es[..n] + [es[n]] == es;
      assert Contacts(TouchAny, p, es) == Outcome(t.player, o0.enemies + [t.enemy], o0.hit || t.hit);
    }
  }

  /** Whether a box overlaps some enemy of the list, or some live one when `liveOnly` is set. */
  ghost predicate OverlapsSome(b: Box, es: seq<EnemyState>, liveOnly: bool)
  {
    exists k :: 0 <= k < |es| && (es[k].alive || !liveOnly) && Overlaps(b, es[k].Bounds())
  }

  lemma OverlapsSomeSplit(b: Box, es: seq<EnemyState>, liveOnly: bool)
    requires es != []
    ensures var n := |es| - 1;
      OverlapsSome(b, es, liveOnly) <==>
        OverlapsSome(b, es[..n], liveOnly) || ((es[n].alive || !liveOnly) && Overlaps(b, es[n].Bounds()))
  {
    var n := |es| - 1;
    if OverlapsSome(b, es[..n], liveOnly) {
      var k :| 0 <= k < n && (es[..n][k].alive || !liveOnly) && Overlaps(b, es[..n][k].Bounds());
      assert es[k] == es[..n][k];
    }
    if OverlapsSome(b, es, liveOnly) {
      var k :| 0 <= k < |es| && (es[k].alive || !liveOnly) && Overlaps(b, es[k].Bounds());
      if k < n {
        assert es[..n][k] == es[k];
      }
    }
  }

  /**
   * game_with_textures.py: the loop starts the death exactly when the player is
   * alive, not attacking and overlapping some live enemy; enemies are untouched.
   */
  lemma {:induction false} DieOnTouchIff(p: PlayerState, es: seq<EnemyState>)
    ensures var o := Contacts(DieOnTouch, p, es);
      o.enemies == es
      && (o.hit <==> !p.isAttacking && !p.isDead && OverlapsSome(p.Bounds(), es, true))
      && o.player == (if o.hit then DeathStarted(p) else p)
    decreases |es|
  {
    if es != [] {
      var n := |es| - 1;
      DieOnTouchIff(p, es[..n]);
      OverlapsSomeSplit(p.Bounds(), es, true);
      var o0 := Contacts(DieOnTouch, p, es[..n]);
      var t := Touch(DieOnTouch, o0.player, es[n]);
      assert es[..n] + [es[n]] == es;
      assert Contacts(DieOnTouch, p, es) == Outcome(t.player, o0.enemies + [t.enemy], o0.hit || t.hit);
    }
  }

  /** The click attack kills exactly the live enemies in reach, never ends the round, and moves nobody. */
  lemma {:induction false} SlashKillsInRange(p: PlayerState, es: seq<EnemyState>)
    ensures var o := Contacts(SlashInRange, p, es);
      !o.hit && o.player == p.(score := o.player.score)
      && forall k :: 0 <= k < |es| ==> o.enemies[k] == es[k].(alive := es[k].alive && !InSlashRange(p, es[k]))
    decreases |es|
  {
    if es != [] {
      var n := |es| - 1;
      SlashKillsInRange(p, es[..n]);
      var o := Contacts(SlashInRange, p, es);
      var o0 := Contacts(SlashInRange, p, es[..n]);
      var t := Touch(SlashInRange, o0.player, es[n]);
      assert o == Outcome(t.player, o0.enemies + [t.enemy], o0.hit || t.hit);
      assert t == TouchSlash(o0.player, es[n]);
      assert InSlashRange(o0.player, es[n]) == InSlashRange(p, es[n]);
      forall k | 0 <= k < |es|
        ensures o.enemies[k] == es[k].(alive := es[k].alive && !InSlashRange(p, es[k]))
      {
        if k < n {
          assert o.enemies[k] == o0.enemies[k] && es[..n][k] == es[k];
        }
      }
    }
  }

  // ---------------------------------------------------------------------------
  // The loops over the objects.

  /** One pass of a contact loop's body over the Player and Enemy objects. */
  method TouchEnemy(rule: ContactRule, player: Player, e: Enemy) returns (hit: bool)
    modifies player, e
    ensures Touched(player.View(), e.View(), hit) == Touch(rule, old(player.View()), old(e.View()))
  {
    match rule
    case ShieldedStomp => hit := TouchShieldedEnemy(player, e);
    case StompOrSide => hit := TouchStompEnemy(player, e);
    case DieOnTouch => hit := TouchDieEnemy(player, e);
    case TouchAny => hit := TouchAnyEnemy(player, e);
    case SlashInRange => hit := TouchSlashEnemy(player, e);
  }

  /** main.py's loop body: a live enemy moves, then a falling player stomps it and a grounded one dies unless attacking. */
  method TouchShieldedEnemy(player: Player, e: Enemy) returns (hit: bool)
    modifies player, e
    ensures Touched(player.View(), e.View(), hit) == TouchShielded(old(player.View()), old(e.View()))
  {
    hit := false;
    if e.alive {
      e.MoveClamped();
      if player.x + player.width > e.x && player.x < e.x + e.width
        && player.y + player.height as real > e.y && player.y < e.y + e.height as real
      {
        if player.velY > 0.0 {
          e.alive := false;
          player.velY := player.jumpPower;
          player.score := player.score + 100;
        } else if !player.isAttacking {
          hit := true;
        }
      }
    }
  }

  /** The stomp-or-side loop body of game_new.py and the platformer scripts. */
  method TouchStompEnemy(player: Player, e: Enemy) returns (hit: bool)
    modifies player, e
    ensures Touched(player.View(), e.View(), hit) == TouchStomp(old(player.View()), old(e.View()))
  {
    hit := false;
    if e.alive {
      if player.x + player.width > e.x && player.x < e.x + e.width
        && player.y + player.height as real > e.y && player.y + player.height as real < e.y + e.height as real
        && player.velY > 0.0
      {
        e.alive := false;
        player.velY := player.jumpPower;
        player.score := player.score + 100;
      } else if player.x < e.x + e.width && player.x + player.width > e.x
        && player.y < e.y + e.height as real && player.y + player.height as real > e.y
      {
        hit := true;
      }
    }
  }

  /** game_with_textures.py's loop body: touching a live enemy starts the death unless attacking. */
  method TouchDieEnemy(player: Player, e: Enemy) returns (hit: bool)
    modifies player
    ensures Touched(player.View(), e.View(), hit) == TouchDie(old(player.View()), e.View())
  {
    hit := false;
    if !player.isAttacking && e.alive
      && player.x < e.x + e.width && player.x + player.width > e.x
      && player.y < e.y + e.height as real && player.y + player.height as real > e.y
    {
      if !player.isDead {
        player.StartDeath();
        hit := true;
      }
    }
  }

  /** game.py's loop body: any overlap ends the game. */
  method TouchAnyEnemy(player: Player, e: Enemy) returns (hit: bool)
    ensures hit == Overlaps(player.Bounds(), e.View().Bounds())
  {
    hit := player.x < e.x + e.width && player.x + player.width > e.x
      && player.y < e.y + e.height as real && player.y + player.height as real > e.y;
  }

  /** game_with_textures.py's click handler, for one enemy. */
  method TouchSlashEnemy(player: Player, e: Enemy) returns (hit: bool)
    modifies player, e
    ensures Touched(player.View(), e.View(), hit) == TouchSlash(old(player.View()), old(e.View()))
  {
    hit := false;
    if e.alive {
      if (player.facingRight && e.x > player.x && e.x < player.x + ATTACK_RANGE)
        || (!player.facingRight && e.x < player.x && e.x > player.x - ATTACK_RANGE)
      {
        if -(PLAYER_HEIGHT as real) < e.y - player.y < PLAYER_HEIGHT as real {
          e.alive := false;
          player.score := player.score + 100;
        }
      }
    }
  }

  /** The state of a contact loop that has handled the first `i` enemies, relative to the state it started from. */
  ghost predicate HandledUpTo(rule: ContactRule, player: Player, enemies: seq<Enemy>, i: nat,
                              p0: PlayerState, before: seq<EnemyState>, hit: bool)
    reads player, enemies
  {
    i <= |enemies| == |before|
    && (forall k :: i <= k < |enemies| ==> enemies[k].View() == before[k])
    && var o := Contacts(rule, p0, before[..i]);
      player.View() == o.player && hit == o.hit
      && (forall k :: 0 <= k < i ==> enemies[k].View() == o.enemies[k])
  }

  /** The body of a contact loop for the enemy at index `i`. */
  method TouchAt(rule: ContactRule, player: Player, enemies: seq<Enemy>, i: nat,
                 ghost p0: PlayerState, ghost before: seq<EnemyState>, hit: bool) returns (hit': bool)
    requires Distinct(enemies) && i < |enemies|
    requires HandledUpTo(rule, player, enemies, i, p0, before, hit)
    modifies player, enemies[i]
    ensures HandledUpTo(rule, player, enemies, i + 1, p0, before, hit')
  {
    ContactsPrefix(rule, p0, before, i);
    var h := TouchEnemy(rule, player, enemies[i]);
    hit' := hit || h;
  }

  /** A whole contact loop over the enemy objects, in list order; `hit` tells whether some contact ended the round. */
  method ResolveContacts(rule: ContactRule, player: Player, enemies: seq<Enemy>) returns (hit: bool)
    requires Distinct(enemies)
    modifies player, enemies
    ensures var o := Contacts(rule, old(player.View()), old(Views(enemies)));
      player.View() == o.player && Views(enemies) == o.enemies && hit == o.hit
  {
    ghost var p0 := player.View();
    ghost var before := Views(enemies);
    hit := false;
    var i := 0;
    while i < |enemies|
      invariant 0 <= i <= |enemies|
      invariant HandledUpTo(rule, player, enemies, i, p0, before, hit)
    {
      hit := TouchAt(rule, player, enemies, i, p0, before, hit);
      i := i + 1;
    }
    HandledAll(rule, player, enemies, p0, before, hit);
  }

  /** A loop that has handled every enemy has computed the whole fold. */
  lemma HandledAll(rule: ContactRule, player: Player, enemies: seq<Enemy>,
                   p0: PlayerState, before: seq<EnemyState>, hit: bool)
    requires HandledUpTo(rule, player, enemies, |enemies|, p0, before, hit)
    ensures var o := Contacts(rule, p0, before);
      player.View() == o.player && Views(enemies) == o.enemies && hit == o.hit
  {
    assert before[..|enemies|] == before;
  }
}
