/** Constants and entity records of the flappy-bird simulation.
    Lengths are in logical window units, velocities in units per frame. */
module Components {

  const SCALE: real := 3.0
  /** Leftward speed of pipes and of the floor layer. */
  const SPEED: real := 4.5
  const PIPE_GAP: real := 150.0
  const PIPE_HEIGHT: real := 160.0 * SCALE
  const FLAP_SPEED: real := 4.5
  const WINDOW_WIDTH: real := 400.0
  const WINDOW_HEIGHT: real := 700.0
  const MIN_PIPE_OFFSET: real := 100.0
  const PIPE_WIDTH: real := 26.0 * SCALE
  const FLOOR_SEGMENT_WIDTH: real := 168.0 * SCALE
  const FLOOR_HEIGHT: real := 50.0
  const BACKGROUND_SEGMENT_WIDTH: real := 144.0 * SCALE

  /** Downward acceleration applied to bodies with mass, per second. */
  const GRAVITY: real := 9.8
  /** The player is created at (PLAYER_START_X, 0) at rest. */
  const PLAYER_START_X: real := -150.0
  const PLAYER_FIRST_FRAME: nat := 0
  const PLAYER_LAST_FRAME: nat := 3
  /** Side of the player's square collision box (a full size, not a half-extent). */
  const PLAYER_BOX_SIZE: real := 45.0
  /** x at which both pipes of a pair appear. */
  const PIPE_SPAWN_X: real := 400.0

  datatype GameMode = Menu | InGame

  datatype Option<T> = None | Some(value: T)

  /** The translation (x, y) and the velocity (vx, vy) of an entity that moves. */
  datatype Body = Body(x: real, y: real, vx: real, vy: real)

  /** The bird: its body and the index of its current sprite frame. */
  datatype Player = Player(body: Body, frame: nat)

  /** A pipe carries nothing beyond its translation and velocity. */
  type Pipe = Body

  /** A tile of the floor or of the backdrop and its scrolling parameters. */
  datatype Segment = Segment(x: real, y: real, width: real, speed: real)
}
