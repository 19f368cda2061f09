/** The world of one game session and the engine systems that update it.
    Each system is one method; Frame runs them in one frame, each only in
    the game mode it is registered for. */
module Game {
  import opened Components
  import Physics
  import Animation
  import Scrolling
  import Collision
  import Pipes

  /** The bird as spawned at startup: at rest at (PLAYER_START_X, 0), first frame. */
  function InitialPlayer(): Player
  {
    Player(Body(PLAYER_START_X, 0.0, 0.0, 0.0), PLAYER_FIRST_FRAME)
  }

  /** What the engine supplies to one frame: whether the flap key was just
      pressed, the frame's length in seconds, which timers finished, and the
      random gap bottom for a spawn. */
  datatype FrameInput = FrameInput(
    flapJustPressed: bool,
    dt: real,
    animationTimerFinished: bool,
    pipeTimerFinished: bool,
    collisionTimerFinished: bool,
    gapBottom: real)

  /** The pipes after the pipe timer's removal and spawn passes. */
  function AfterPipeTick(ps: seq<Pipe>, input: FrameInput): seq<Pipe>
  {
    if input.pipeTimerFinished then Pipes.Retained(ps) + Pipes.SpawnedPair(input.gapBottom) else ps
  }

  class World {
    var mode: GameMode
    /** A transition requested during this frame, applied at the start of the next. */
    var next: Option<GameMode>
    var player: Player
    /** The pipes in spawn order: upper, lower, upper, lower, ... */
    var pipes: seq<Pipe>
    /** Floor segments, then backdrop segments. */
    var segments: seq<Segment>

    /** What every system keeps: the bird never moves sideways and shows a
        frame of its cycle, pipes come in well-formed pairs, and the
        scrolling layers are seamless. */
    ghost predicate Invariant()
      reads this
    {
      && player.body.vx == 0.0
      && PLAYER_FIRST_FRAME <= player.frame <= PLAYER_LAST_FRAME
      && Pipes.Paired(pipes)
      && Scrolling.LayersOK(segments)
    }

    /** The bird rests at mid-height and there is no pipe. */
    ghost predicate AtRest()
      reads this
    {
      pipes == [] && player.body.y == 0.0 && player.body.vy == 0.0
    }

    /** In the menu the world is at rest. */
    ghost predicate Valid()
      reads this
    {
      Invariant() && (mode == Menu ==> AtRest())
    }

    /** Startup: the menu, the bird, two floor and two backdrop segments. */
    constructor ()
      ensures Valid() && mode == Menu && next == None
      ensures player == InitialPlayer() && pipes == [] && segments == Scrolling.InitialSegments()
    {
      mode := Menu;
      next := None;
      player := InitialPlayer();
      pipes := [];
      segments := Scrolling.InitialSegments();
      Scrolling.InitialLayersOK();
    }

    /** flap_system: a just-pressed flap key overwrites the bird's vertical
        velocity with FLAP_SPEED. */
    method Flap(justPressed: bool)
      requires Valid() && mode == InGame
      modifies this`player
      ensures Valid()
      ensures player == if justPressed then old(player).(body := Physics.Flapped(old(player).body)) else old(player)
    {
      if justPressed {
        player := player.(body := player.body.(vy := FLAP_SPEED));
      }
    }

    /** gravity_system: the bird, the only body with mass, loses GRAVITY * dt
        of vertical velocity; pipes have no mass and are untouched. */
    method Gravity(dt: real)
      requires Valid() && mode == InGame && dt >= 0.0
      modifies this`player
      ensures Valid()
      ensures player == old(player).(body := Physics.Accelerated(old(player).body, dt))
    {
      var acceleration := GRAVITY * dt;
      player := player.(body := player.body.(vy := player.body.vy - acceleration));
    }

    /** movement_system: every body with a velocity, the bird and each pipe,
        moves by its velocity. */
    method Movement()
      requires Valid()
      modifies this`player, this`pipes
      ensures Valid()
      ensures player == old(player).(body := Physics.Moved(old(player).body))
      ensures pipes == Physics.MovedAll(old(pipes))
    {
      player := player.(body := player.body.(x := player.body.x + player.body.vx, y := player.body.y + player.body.vy));
      var i := 0;
      while i < |pipes|
        invariant player == old(player).(body := Physics.Moved(old(player).body))
        invariant 0 <= i <= |pipes| == |old(pipes)|
        invariant forall k :: 0 <= k < i ==> pipes[k] == Physics.Moved(old(pipes)[k])
        invariant forall k :: i <= k < |pipes| ==> pipes[k] == old(pipes)[k]
      {
        var p := pipes[i];
        pipes := pipes[i := p.(x := p.x + p.vx, y := p.y + p.vy)];
        i := i + 1;
      }
      forall k | 0 <= k < |pipes|
        ensures |Physics.MovedAll(old(pipes))| == |pipes| && pipes[k] == Physics.MovedAll(old(pipes))[k]
      {
        Physics.MovedAllAt(old(pipes), k);
      }
      assert pipes == Physics.MovedAll(old(pipes));
      Pipes.MovedKeepsPairs(old(pipes));
    }

    /** animate_sprite_system: when the animation timer has finished, the
        bird's frame index steps through its cycle. */
    method AnimateSprite(timerFinished: bool)
      requires Valid()
      modifies this`player
      ensures Valid()
      ensures player == old(player).(frame := Animation.NextFrame(old(player).frame, PLAYER_FIRST_FRAME, PLAYER_LAST_FRAME, timerFinished))
    {
      if timerFinished {
        if player.frame == PLAYER_LAST_FRAME {
          player := player.(frame := PLAYER_FIRST_FRAME);
        } else {
          player := player.(frame := player.frame + 1);
        }
      }
    }

    /** spawn_pipes_system: appends an upper and a lower pipe around a gap
        whose bottom is the random value gapBottom. */
    method SpawnPipes(gapBottom: real)
      requires Valid() && mode == InGame && Pipes.GapBottomInRange(gapBottom)
      modifies this`pipes
      ensures Valid()
      ensures pipes == old(pipes) + Pipes.SpawnedPair(gapBottom)
    {
      var gapTop := gapBottom + PIPE_GAP;
      var upper := Body(PIPE_SPAWN_X, gapTop + PIPE_HEIGHT, -SPEED, 0.0);
      var lower := Body(PIPE_SPAWN_X, gapBottom, -SPEED, 0.0);
      Pipes.SpawnKeepsPairs(pipes, gapBottom);
      pipes := pipes + [upper, lower];
    }

    /** remove_pipes_system: despawns every pipe that has passed the left
        edge and keeps the others in order. */
    method RemovePipes()
      requires Valid() && mode == InGame
      modifies this`pipes
      ensures Valid()
      ensures pipes == Pipes.Retained(old(pipes))
    {
      var kept: seq<Pipe> := [];
      var i := 0;
      while i < |pipes|
        invariant 0 <= i <= |pipes|
        invariant kept == Pipes.Retained(pipes[..i])
      {
        assert pipes[..i + 1][..i] == pipes[..i];
        if pipes[i].x < -WINDOW_WIDTH / 2.0 - PIPE_WIDTH {
          // despawned
        } else {
          kept := kept + [pipes[i]];
        }
        i := i + 1;
      }
      assert pipes[..|pipes|] == pipes;
      Pipes.RetainedKeepsPairs(pipes);
      pipes := kept;
    }

    /** infinite_scrolling_system: every segment moves by its speed and is
        wrapped two widths to the right once past the wrap line. */
    method ScrollSegments()
      requires Valid()
      modifies this`segments
      ensures Valid()
      ensures segments == Scrolling.ScrolledAll(old(segments))
    {
      var i := 0;
      while i < |segments|
        invariant 0 <= i <= |segments| == |old(segments)|
        invariant forall k :: 0 <= k < i ==> segments[k] == Scrolling.Scrolled(old(segments)[k])
        invariant forall k :: i <= k < |segments| ==> segments[k] == old(segments)[k]
      {
        var s := segments[i];
        var x := s.x + s.speed;
        if x < -WINDOW_WIDTH / 2.0 - s.width {
          x := x + s.width * 2.0;
        }
        segments := segments[i := s.(x := x)];
        i := i + 1;
      }
      forall k | 0 <= k < |segments|
        ensures |Scrolling.ScrolledAll(old(segments))| == |segments| && segments[k] == Scrolling.ScrolledAll(old(segments))[k]
      {
        Scrolling.ScrolledAllAt(old(segments), k);
      }
      assert segments == Scrolling.ScrolledAll(old(segments));
      Scrolling.ScrolledLayersOK(old(segments));
    }

    /** game_over_system: requests the menu when the bird is below the floor
        line or hits a pipe; otherwise the pending transition is left alone. */
    method GameOverSystem()
      requires Valid() && mode == InGame
      modifies this`next
      ensures Valid()
      ensures next == if Collision.GameOver(player.body, pipes) then Some(Menu) else old(next)
    {
      var over := Collision.DetectGameOver(player.body, pipes);
      if over {
        next := Some(Menu);
      }
    }

    /** start_game_system: in the menu, a just-pressed flap key requests the game. */
    method StartGame(justPressed: bool)
      requires Valid() && mode == Menu
      modifies this`next
      ensures Valid()
      ensures next == if justPressed then Some(InGame) else old(next)
    {
      if justPressed {
        next := Some(InGame);
      }
    }

    /** setup_menu_system, run on entering the menu: the bird stops and
        returns to mid-height, keeping its x; every pipe is despawned; the
        scroll segments are not touched. */
    method SetupMenu()
      requires Invariant()
      modifies this`player, this`pipes
      ensures Invariant() && AtRest()
      ensures player == old(player).(body := old(player).body.(y := 0.0, vy := 0.0))
      ensures pipes == []
    {
      player := player.(body := player.body.(vy := 0.0));
      player := player.(body := player.body.(y := 0.0));
      pipes := [];
    }

    /** The engine's state transition at the start of a frame: a pending
        mode becomes the mode, and entering the menu runs SetupMenu. */
    method ApplyTransition()
      requires Valid()
      modifies this`mode, this`next, this`player, this`pipes
      ensures Valid() && next == None
      ensures mode == if old(next).Some? then old(next).value else old(mode)
      ensures old(next) == Some(Menu) ==> player == old(player).(body := old(player).body.(y := 0.0, vy := 0.0)) && pipes == []
      ensures old(next) != Some(Menu) ==> player == old(player) && pipes == old(pipes)
    {
      if next.Some? {
        var entered := next.value;
        next := None;
        mode := entered;
        if entered == Menu {
          SetupMenu();
        }
      }
    }

    /** The fixed-timestep systems of a frame, in the game only: the
        collision check when its timer has finished, and pipe removal and
        spawn when the pipe timer has. Spawned pipes appear only after the
        other two have looked at the pipes. */
    method FixedUpdate(input: FrameInput)
      requires Valid() && Pipes.GapBottomInRange(input.gapBottom)
      modifies this`next, this`pipes
      ensures Valid()
      ensures mode == Menu ==> next == old(next) && pipes == old(pipes)
      ensures mode == InGame ==> pipes == AfterPipeTick(old(pipes), input)
      ensures mode == InGame ==>
        next == if input.collisionTimerFinished && Collision.GameOver(player.body, old(pipes)) then Some(Menu) else old(next)
    {
      if mode == InGame && input.collisionTimerFinished {
        GameOverSystem();
      }
      if mode == InGame && input.pipeTimerFinished {
        RemovePipes();
        SpawnPipes(input.gapBottom);
      }
    }

    /** Movement, then animation: the systems that run in both modes after
        the input systems. */
    method MoveAndAnimate(timerFinished: bool)
      requires Valid()
      modifies this`player, this`pipes
      ensures Valid()
      ensures player == Player(Physics.Moved(old(player).body),
        Animation.NextFrame(old(player).frame, PLAYER_FIRST_FRAME, PLAYER_LAST_FRAME, timerFinished))
      ensures pipes == Physics.MovedAll(old(pipes))
    {
      Movement();
      AnimateSprite(timerFinished);
    }

    /** The per-frame systems registered for both modes: scrolling,
        movement and animation. */
    method Ambient(timerFinished: bool)
      requires Valid()
      modifies this`player, this`pipes, this`segments
      ensures Valid()
      ensures segments == Scrolling.ScrolledAll(old(segments))
      ensures player == Player(Physics.Moved(old(player).body),
        Animation.NextFrame(old(player).frame, PLAYER_FIRST_FRAME, PLAYER_LAST_FRAME, timerFinished))
      ensures pipes == Physics.MovedAll(old(pipes))
    {
      ScrollSegments();
      MoveAndAnimate(timerFinished);
    }

    /** The per-frame systems in the menu: scrolling, the start check,
        movement and animation. */
    method MenuUpdate(input: FrameInput)
      requires Valid() && mode == Menu
      modifies this`next, this`player, this`pipes, this`segments
      ensures Valid()
      ensures segments == Scrolling.ScrolledAll(old(segments))
      ensures next == if input.flapJustPressed then Some(InGame) else old(next)
      ensures player == old(player).(frame := Animation.NextFrame(old(player).frame, PLAYER_FIRST_FRAME, PLAYER_LAST_FRAME, input.animationTimerFinished))
      ensures pipes == old(pipes)
    {
      StartGame(input.flapJustPressed);
      Ambient(input.animationTimerFinished);
    }

    /** The per-frame systems in the game: scrolling, flap, gravity,
        movement and animation. */
    method GameUpdate(input: FrameInput)
      requires Valid() && mode == InGame && input.dt >= 0.0
      modifies this`player, this`pipes, this`segments
      ensures Valid()
      ensures segments == Scrolling.ScrolledAll(old(segments))
      ensures player == Player(
        Physics.Fell(if input.flapJustPressed then Physics.Flapped(old(player).body) else old(player).body, input.dt),
        Animation.NextFrame(old(player).frame, PLAYER_FIRST_FRAME, PLAYER_LAST_FRAME, input.animationTimerFinished))
      ensures pipes == Physics.MovedAll(old(pipes))
    {
      Flap(input.flapJustPressed);
      Gravity(input.dt);
      Ambient(input.animationTimerFinished);
    }

    /** The per-frame systems, each in the mode it is registered for:
        scrolling, movement and animation always, the start check in the
        menu, flap and gravity in the game. */
    method Update(input: FrameInput)
      requires Valid() && input.dt >= 0.0
      modifies this`next, this`player, this`pipes, this`segments
      ensures Valid()
      ensures segments == Scrolling.ScrolledAll(old(segments))
      ensures mode == Menu ==> next == (if input.flapJustPressed then Some(InGame) else old(next))
      ensures mode == InGame ==> next == old(next)
      ensures player.frame == Animation.NextFrame(old(player).frame, PLAYER_FIRST_FRAME, PLAYER_LAST_FRAME, input.animationTimerFinished)
      ensures mode == Menu ==> player.body == old(player).body
      ensures mode == InGame ==>
        player.body == Physics.Fell(if input.flapJustPressed then Physics.Flapped(old(player).body) else old(player).body, input.dt)
      ensures pipes == Physics.MovedAll(old(pipes))
    {
      if mode == Menu {
        MenuUpdate(input);
      } else {
        GameUpdate(input);
      }
    }

    /** One frame: the pending transition, the fixed-timestep systems, then
        the per-frame systems, each only in the mode it is registered for. */
    method Frame(input: FrameInput)
      requires Valid() && input.dt >= 0.0 && Pipes.GapBottomInRange(input.gapBottom)
      modifies this
      ensures Valid()
      ensures mode == if old(next).Some? then old(next).value else old(mode)
      ensures player.body.x == old(player).body.x
      ensures segments == Scrolling.ScrolledAll(old(segments))
      ensures player.frame == Animation.NextFrame(old(player).frame, PLAYER_FIRST_FRAME, PLAYER_LAST_FRAME, input.animationTimerFinished)
      ensures mode == Menu ==> next == (if input.flapJustPressed then Some(InGame) else None)
      ensures mode == Menu ==> player.body == old(player).body.(y := 0.0, vy := 0.0) && pipes == []
      ensures mode == InGame ==> next == None || next == Some(Menu)
      ensures mode == InGame && !input.collisionTimerFinished ==> next == None
      ensures mode == InGame ==>
        (next == Some(Menu) <==> input.collisionTimerFinished && Collision.GameOver(old(player).body, old(pipes)))
      ensures mode == InGame ==>
        player.body == Physics.Fell(if input.flapJustPressed then Physics.Flapped(old(player).body) else old(player).body, input.dt)
      ensures mode == InGame ==> pipes == Physics.MovedAll(AfterPipeTick(old(pipes), input))
    {
      ApplyTransition();
      FixedUpdate(input);
      Update(input);
    }
  }

  /** From the menu, a flap starts the game on the next frame, and a finished
      pipe timer in the game produces exactly one pair of pipes. */
  method FlapFromMenuStartsGame()
  {
    var w := new World();
    w.Frame(FrameInput(true, 0.016, false, false, false, 0.0));
    assert w.mode == Menu && w.next == Some(InGame);
    w.Frame(FrameInput(false, 0.016, false, true, false, 0.0));
    assert w.mode == InGame && |w.pipes| == 2;
  }
}
