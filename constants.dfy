/** Tuning values shared by the `src/` variants of the game (src/constants.py). */
module Constants {
  // Display and level size, in pixels.
  const WIDTH: int := 800
  const HEIGHT: int := 600
  const LEVEL_WIDTH: int := 3200

  // Player.
  const PLAYER_WIDTH: int := 60
  const PLAYER_HEIGHT: int := 80
  const PLAYER_SPEED: int := 5
  const PLAYER_JUMP_POWER: real := -15.0
  const PLAYER_GRAVITY: real := 0.8
  const ATTACK_RANGE: int := 80

  // Platforms.
  const PLATFORM_WIDTH: int := 100
  const PLATFORM_HEIGHT: int := 40

  // Enemies.
  const ENEMY_WIDTH: int := 60
  const ENEMY_HEIGHT: int := 60
  const ENEMY_SPEED: int := 2
  const ENEMY_PATROL_RANGE: int := 150

  // Animation timer increments per drawn frame.
  const ANIMATION_SPEED: real := 0.2
  const ATTACK_ANIMATION_SPEED: real := 0.15
  const DEATH_ANIMATION_SPEED: real := 0.1
}
