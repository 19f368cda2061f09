# Flappy bird: a verified model of the game's systems

The game is a small Bevy application (`src/main.rs`). The bird falls under
gravity and flaps upward when the space key is pressed. Pairs of pipes
appear at the right edge of the window and drift left. The floor and the
backdrop scroll endlessly. Falling below the floor line or overlapping a pipe sends the
game back to the menu, and a key press in the menu starts a new round.

The model keeps the program's own structure. Every entity is a value:

- `Components.Body` holds a translation and a velocity.
- `Components.Player` is the bird's body plus its sprite frame.
- a pipe is a `Body`.
- `Components.Segment` is a scrolling tile.

The world is one class, `Game.World`. Its fields are:

- `mode`, the game state.
- `next`, the state requested through `NextState`.
- `player`.
- the sequence of `pipes`.
- the four scroll `segments`.

Each Bevy system is one method of `World`. Each method changes only the
fields that system writes, and states the whole new value of those fields.
It is specified against a pure function of the old state: `Physics.Moved`,
`Pipes.Retained`, `Scrolling.Scrolled` and others. What the game promises is
proved about those functions as lemmas.

`World.Frame` runs one frame in this order:

1. Applies a pending state transition. Entering the menu runs `setup_menu_system`.
2. Runs the fixed-timestep systems.
3. Runs the per-frame systems, each only in the state it is registered for in `main`.

Every operation keeps `World.Valid`. `Valid` says that:

- the bird's horizontal velocity is zero and its frame is within 0..3.
- the pipes form consecutive well-formed pairs: one column, speed `SPEED`, a gap of exactly `PIPE_GAP`, and a gap bottom in the spawn range.
- the floor and backdrop layers are seamless: the two tiles of a layer are always exactly one width apart.
- in the menu the bird rests at height 0 and there are no pipes.

Inputs the engine supplies (the key state, the frame time, which timers
have finished, the random gap height) are fields of `Game.FrameInput`.

`Game.FlapFromMenuStartsGame` runs two frames from startup. A key press
in the menu requests the game. On the next frame the game has started,
and a finished pipe timer has produced exactly one pair of pipes. Its
assertions are proved from the contracts of the constructor and of
`World.Frame` alone.

## Model

| member | source | states |
|---|---|---|
| Game.World.constructor | src/main.rs:64-90 | startup state: menu, no pending transition, bird at (-150, 0) at rest on frame 0, no pipes, and the two floor tiles and two backdrop tiles; the world invariant holds |
| Scrolling.InitialLayersOK | src/main.rs:178-262 | the startup tiles form two seamless layers inside the wrap window, and the backdrop moves at a fifth of the floor's speed |
| Game.World.Flap | src/main.rs:92-97 | a just-pressed key sets the bird's vertical velocity to FLAP_SPEED and changes nothing else; no key, no change |
| Physics.FlapOverwrites | src/main.rs:92-97 | a flap forgets the previous vertical velocity and keeps position and horizontal velocity |
| Game.World.AnimateSprite | src/main.rs:99-117 | on a finished timer the frame index steps to the next frame, wrapping from last to first; the index stays in 0..3 |
| Animation.NextFrame | src/main.rs:108-114 | a step from an index in first..last stays in first..last |
| Animation.NextFrameCases | src/main.rs:108-114 | an unfinished timer keeps the index; a finished one wraps at the last frame and otherwise adds one |
| Animation.AdvancedAdds | src/main.rs:99-117 | k1 + k2 finished ticks are k1 ticks followed by k2 ticks |
| Animation.AdvancedCountsUp | src/main.rs:108-114 | before reaching the last frame, k ticks add k to the index |
| Animation.WrapsToFirst | src/main.rs:108-114 | one tick past the last frame gives the first frame |
| Animation.CycleReturns | src/main.rs:99-117 | after last - first + 1 ticks the index is back where it started, so the frame sequence is periodic |
| Game.World.Movement | src/main.rs:125-130 | the bird and every pipe move by their velocity, and the pipes keep their order; pipe pairs stay well formed |
| Physics.MovedAllAt | src/main.rs:125-130 | moving every body moves the k-th body by its own velocity |
| Physics.MovementIndependentAxes | src/main.rs:125-130 | x and y are integrated independently, and velocity is unchanged |
| Pipes.MovedKeepsPairs | src/main.rs:125-130 | movement keeps every pipe pair well formed |
| Game.World.Gravity | src/main.rs:280-286 | the bird's vertical velocity drops by 9.8 * dt and nothing else changes |
| Physics.GravityAdds | src/main.rs:280-286 | gravity changes vy alone, and two frames of gravity equal one frame of the summed time |
| Physics.FreeFallVelocity | src/main.rs:280-286 | after n frames without a flap, vy has dropped by n * 9.8 * dt and x has moved by n * vx |
| Physics.FreeFallSplit | src/main.rs:280-286 | free fall over n + m frames is n frames followed by m frames |
| Physics.FallsWhileDescending | src/main.rs:280-286 | a bird moving down at least one unit per frame passes any height |
| Physics.EventuallyBelow | src/main.rs:280-286 | without flaps and with frames of positive length, the bird falls below any height, the floor line included |
| Game.World.SpawnPipes | src/main.rs:132-168 | appends an upper and a lower pipe at x = 400 moving left at SPEED around a gap starting at gapBottom |
| Pipes.GapRange | src/main.rs:135-137 | the gap bottom is drawn from [-250, 100), and pipes retire left of x = -278 |
| Pipes.SpawnedPairProperties | src/main.rs:132-168 | the spawned boxes leave a gap of exactly PIPE_GAP, at least MIN_PIPE_OFFSET from both window edges, and both pipes spawn right of the window (x = 400 > 200) and before the retire line, so neither can be removed on the tick it spawns |
| Pipes.SpawnKeepsPairs | src/main.rs:132-168 | a spawn appends one well-formed pair |
| Game.World.RemovePipes | src/main.rs:170-176 | keeps exactly the pipes not left of -WINDOW_WIDTH / 2 - PIPE_WIDTH, in their order; pairs stay well formed |
| Pipes.RetainedMembership | src/main.rs:170-176 | a pipe survives removal if and only if it was there and has not passed the retire line x = -278 |
| Pipes.RetainedAppend | src/main.rs:170-176 | removal acts pipe by pipe: removing from a concatenation concatenates the results |
| Pipes.RetainedAllBeforeRetireLine | src/main.rs:170-176 | removal keeps every pipe when none has passed the retire line |
| Pipes.RetainedKeepsPairs | src/main.rs:170-176 | both pipes of a pair are removed together or kept together |
| Pipes.RemoveSpawnCommute | src/main.rs:370-378 | a freshly spawned pair is never removed, so the order of the two pipe systems does not matter |
| Pipes.DriftedPosition | src/main.rs:125-130 | after n frames a pipe is at its start plus n times its velocity |
| Pipes.EventuallyPastRetireLine | src/main.rs:170-176 | every pipe moving left at SPEED eventually passes the removal line |
| Pipes.ClearOfPairIffInGap | src/main.rs:300-311 | a bird level with a pair's column misses both pipes if and only if its box is inside the gap, or wholly above or below the pair |
| Game.World.ScrollSegments | src/main.rs:264-278 | every tile moves by its speed and jumps right by two widths once past the wrap line; the layers stay seamless |
| Scrolling.ScrolledAllAt | src/main.rs:264-278 | the k-th tile after a frame is that tile scrolled on its own |
| Scrolling.ScrolledChangesOnlyX | src/main.rs:264-278 | scrolling changes a tile's x only |
| Scrolling.ScrolledStaysInWindow | src/main.rs:264-278 | a tile moving left by at most two widths per frame never ends a frame left of the wrap line, nor past the window two widths to its right |
| Scrolling.WrapIdempotent | src/main.rs:274-276 | wrapping twice without moving wraps once |
| Scrolling.OffsetInvariantModuloTwoWidths | src/main.rs:264-278 | a frame changes the distance between two tiles of one layer by a multiple of two widths |
| Scrolling.ScrolledKeepsLayer | src/main.rs:264-278 | the two tiles of a layer stay exactly one width apart after a frame, whatever the speed |
| Scrolling.LayerForever | src/main.rs:264-278 | the two tiles of a layer stay exactly one width apart after any number of frames |
| Scrolling.ScrolledLayersOK | src/main.rs:264-278 | a scrolling pass keeps both layers seamless and every tile in its window |
| Collision.DetectGameOver | src/main.rs:288-318 | the floor test, then the pipes in order up to the first hit, gives true exactly when the bird is below the floor line or overlaps some pipe |
| Collision.FloorLineValue | src/main.rs:297-299 | the floor line is y = -300 |
| Collision.TouchingIsNotCollision | src/main.rs:301-306 | any two boxes that only meet along an edge, on either axis and from either side, do not collide |
| Collision.CollideIffSharedPoint | src/main.rs:301-306 | boxes of positive size collide if and only if they share an interior point, so every overlap of positive area is a collision |
| Collision.NoPipesOnlyFloor | src/main.rs:288-318 | with no pipes only the floor ends the game |
| Game.World.GameOverSystem | src/main.rs:288-318 | requests the menu exactly when the bird is grounded or hits a pipe, and otherwise leaves the request alone |
| Game.World.StartGame | src/main.rs:334-341 | in the menu, a just-pressed key requests the game, and otherwise the request is left alone |
| Game.World.SetupMenu | src/main.rs:320-332 | the bird's y and vy become 0 and its x and frame stay; every pipe is despawned |
| Game.World.ApplyTransition | src/main.rs:362-369 | a pending state becomes the state; entering the menu resets the bird and clears the pipes; otherwise nothing else changes |
| Game.World.FixedUpdate | src/main.rs:370-384 | in the game, a finished collision timer requests the menu on a crash, and a finished pipe timer removes passed pipes and then spawns one pair; in the menu nothing changes |
| Game.World.MoveAndAnimate | src/main.rs:386-387 | movement of bird and pipes, then one animation step |
| Game.World.Ambient | src/main.rs:367-387 | the systems registered for both states: scrolling, movement, animation |
| Game.World.MenuUpdate | src/main.rs:367-387 | in the menu, the start check runs, then scrolling, movement and animation; the bird does not move and there are no pipes |
| Game.World.GameUpdate | src/main.rs:367-387 | in the game: flap, then gravity, then scrolling, movement and animation; the bird ends the frame at Fell(flapped body, dt) |
| Game.World.Update | src/main.rs:367-387 | dispatches the per-frame systems by state, with the new request, the bird, the pipes and the tiles stated for both states |
| Game.World.Frame | src/main.rs:347-388 | one whole frame: the new state is the pending one; the bird's x never changes; in the menu the bird rests and there are no pipes; in the game the bird falls or flaps, the pipes move after the pipe tick, and the menu is requested exactly when the collision tick finds the bird grounded or overlapping a pipe at the start of the frame |

## Left out

- The Bevy `App`, the window, the camera, the sprites, the textures and the asset server: they only draw the world.
- `tilt_with_vel_system` (src/main.rs:119-124): it sets the bird's rotation from its velocity through trigonometry, and nothing reads the rotation.
- Game.World.SpawnPipes: the random gap bottom is a parameter; its precondition is the half-open range `gen_range` draws from.
- Game.World.Frame: a fixed timer (`on_fixed_timer`) is a boolean that fires at most once per frame; the real fixed schedule can run several times in one long frame.
- Game.World.Frame: `dt` and the timer flags come from the engine's clock. The animation timer's 0.1 s period and the pipe timer's `PIPE_INTERVAL` of 1 s are not modelled.
- Collision.Collide: `collide_aabb::collide` is not part of this model. It is assumed to compare all four edges strictly, taking the given sizes as full sizes.
- The bird's collision box is 45 × 45 as a full size: `collide` halves the sizes it is given (src/main.rs:302-306), so its half-extent is 22.5.
- Arithmetic is on exact reals: `f32` rounding is not modelled.
- Bevy does not fix the order of systems in one schedule; the model fixes one order (flap, gravity, movement, animation; game over, removal, spawn). `Pipes.RemoveSpawnCommute` shows that the order of the two pipe systems does not matter.
- Commands are applied at the end of the fixed-timestep schedule, so the collision and removal checks both see the pipes as they were before the spawn.
- The frame index is a `nat`; the `usize` range of `TextureAtlasSprite::index` cannot overflow between 0 and 3, so no wrap-around is modelled.
- The `single_mut` panics cannot happen here: the world holds exactly one bird.
- At startup the state is the menu and Bevy runs `OnEnter(Menu)` once; the bird already rests at the start, so the constructor builds that state directly.
