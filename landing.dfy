/**
 * The one-way platform rule of every frame step (main.py, game_new.py,
 * game_with_textures.py, platformer/game_new.py, platformer/game.py, game.py):
 * a player that is not moving up and whose bottom has reached the top of a
 * platform it overlaps horizontally is put on that platform.
 */
module Landing {
  import opened Geometry
  import opened PlayerModel
  import opened Players

  /** The test and snap applied for one platform. */
  function LandOne(p: PlayerState, plat: Box): (r: PlayerState)
    ensures r == p.(y := r.y, velY := r.velY, onGround := r.onGround, jumping := r.jumping)
    ensures r != p ==> OnTop(p.Bounds(), plat) && p.velY >= 0.0
    ensures OnTop(p.Bounds(), plat) && p.velY >= 0.0 ==>
      r.y == plat.y - p.height as real && r.velY == 0.0 && r.onGround && !r.jumping
  {
    if OnTop(p.Bounds(), plat) && p.velY >= 0.0 then
      p.(y := plat.y - p.height as real, velY := 0.0, onGround := true, jumping := false)
    else p
  }

  /**
   * The platform loop, in list order. Only the vertical state changes, the
   * player is never moved down, a change always means a landing, and a player
   * that ends up on the ground without having been on it rests on top of one of
   * the platforms it overlaps.
   */
  function LandAll(p: PlayerState, plats: seq<Box>): (r: PlayerState)
    ensures r == p.(y := r.y, velY := r.velY, onGround := r.onGround, jumping := r.jumping)
    ensures r.y <= p.y
    ensures p.onGround ==> r.onGround
    ensures r != p ==> r.onGround && r.velY == 0.0 && !r.jumping
    ensures r.onGround && !p.onGround ==>
      exists k :: 0 <= k < |plats| && r.y == plats[k].y - p.height as real
        && p.x + p.width > plats[k].x && p.x < plats[k].Right()
    decreases |plats|
  {
    if |plats| == 0 then p
    else
      var q := LandAll(p, plats[..|plats| - 1]);
      var r := LandOne(q, plats[|plats| - 1]);
      var init := plats[..|plats| - 1];
      assert forall k :: 0 <= k < |init| ==> init[k] == plats[k];
      r
  }

  /** A player standing on top of any platform, and not moving up, is on the ground once the loop is done. */
  lemma {:induction false} LandsIfOnTop(p: PlayerState, plats: seq<Box>, k: int)
    requires 0 <= k < |plats| && OnTop(p.Bounds(), plats[k]) && p.velY >= 0.0
    ensures LandAll(p, plats).onGround
    decreases |plats|
  {
    var n := |plats| - 1;
    var q := LandAll(p, plats[..n]);
    if k < n {
      assert plats[..n][k] == plats[k];
      LandsIfOnTop(p, plats[..n], k);
    } else if q != p {
      assert q.onGround;
    } else {
      assert LandOne(q, plats[n]).onGround;
    }
  }

  /** The test and snap for one platform, on the Player object. */
  method LandOn(player: Player, plat: Box)
    modifies player
    ensures player.View() == LandOne(old(player.View()), plat)
  {
    if player.y + player.height as real >= plat.y && player.y < plat.y
      && player.x + player.width > plat.x && player.x < plat.x + plat.width
    {
      if player.velY >= 0.0 {
        player.y := plat.y - player.height as real;
        player.velY := 0.0;
        player.onGround := true;
        player.jumping := false;
      }
    }
  }

  /** The platform loop over the Player object: `player.on_ground` is set by the caller, the loop only lands. */
  method ResolvePlatforms(player: Player, plats: seq<Box>)
    modifies player
    ensures player.View() == LandAll(old(player.View()), plats)
  {
    ghost var p0 := player.View();
    var i := 0;
    while i < |plats|
      invariant 0 <= i <= |plats|
      invariant player.View() == LandAll(p0, plats[..i])
    {
      LandOn(player, plats[i]);
      assert plats[..i + 1][..i] == plats[..i];
      assert LandAll(p0, plats[..i + 1]) == LandOne(LandAll(p0, plats[..i]), plats[i]);
      i := i + 1;
    }
    assert plats[..i] == plats;
  }
}
