/** The game-over test: the bird below the floor line, or its box overlapping a pipe's box. */
module Collision {
  import opened Components

  /** The top of the floor graphic; below it the bird has crashed. */
  const FLOOR_LINE: real := -WINDOW_HEIGHT / 2.0 + FLOOR_HEIGHT

  /** An axis-aligned box given by its centre and its full width and height. */
  datatype Box = Box(cx: real, cy: real, w: real, h: real)

  /** Overlap of two boxes. The engine's collide_aabb::collide is not part of
      this model; it is assumed to compare the four edges strictly, so boxes
      that only touch do not collide. */
  predicate Collide(a: Box, b: Box)
  {
    && a.cx - a.w / 2.0 < b.cx + b.w / 2.0
    && a.cx + a.w / 2.0 > b.cx - b.w / 2.0
    && a.cy - a.h / 2.0 < b.cy + b.h / 2.0
    && a.cy + a.h / 2.0 > b.cy - b.h / 2.0
  }

  /** The bird's box is centred on its translation. */
  function PlayerBox(b: Body): Box
  {
    Box(b.x, b.y, PLAYER_BOX_SIZE, PLAYER_BOX_SIZE)
  }

  /** A pipe is drawn from its top-left corner, so its box is centred half a
      width right of and half a height below its translation. */
  function PipeBox(p: Pipe): Box
  {
    Box(p.x + PIPE_WIDTH / 2.0, p.y - PIPE_HEIGHT / 2.0, PIPE_WIDTH, PIPE_HEIGHT)
  }

  predicate Grounded(b: Body)
  {
    b.y < FLOOR_LINE
  }

  predicate HitsPipe(b: Body, pipes: seq<Pipe>)
  {
    exists i :: 0 <= i < |pipes| && Collide(PlayerBox(b), PipeBox(pipes[i]))
  }

  /** The bird has crashed into the floor or into some pipe. */
  predicate GameOver(b: Body, pipes: seq<Pipe>)
  {
    Grounded(b) || HitsPipe(b, pipes)
  }

  /** The floor check, then the pipes in order until the first hit. Stopping
      at the first hit gives the same verdict as checking every pipe. */
  method DetectGameOver(b: Body, pipes: seq<Pipe>) returns (over: bool)
    ensures over <==> GameOver(b, pipes)
  {
    over := false;
    if b.y < FLOOR_LINE {
      over := true;
    }
    var i := 0;
    while i < |pipes|
      invariant 0 <= i <= |pipes|
      invariant over <==> Grounded(b) || exists j :: 0 <= j < i && Collide(PlayerBox(b), PipeBox(pipes[j]))
    {
      if Collide(PlayerBox(b), PipeBox(pipes[i])) {
        over := true;
        break;
      }
      i := i + 1;
    }
  }

  /** The floor line is 300 units below the centre of the window. */
  lemma FloorLineValue(b: Body)
    ensures FLOOR_LINE == -300.0
    ensures Grounded(b) <==> b.y < -300.0
  {
  }

  /** Touching is not colliding: two boxes that meet along an edge, on either
      axis and from either side, do not collide. */
  lemma TouchingIsNotCollision(a: Box, b: Box)
    ensures a.cx + a.w / 2.0 == b.cx - b.w / 2.0 ==> !Collide(a, b)
    ensures a.cx - a.w / 2.0 == b.cx + b.w / 2.0 ==> !Collide(a, b)
    ensures a.cy + a.h / 2.0 == b.cy - b.h / 2.0 ==> !Collide(a, b)
    ensures a.cy - a.h / 2.0 == b.cy + b.h / 2.0 ==> !Collide(a, b)
  {
  }

  /** The point (px, py) lies strictly inside the box. */
  predicate Inside(a: Box, px: real, py: real)
  {
    && a.cx - a.w / 2.0 < px < a.cx + a.w / 2.0
    && a.cy - a.h / 2.0 < py < a.cy + a.h / 2.0
  }

  function Max(x: real, y: real): real
  {
    if x < y then y else x
  }

  function Min(x: real, y: real): real
  {
    if x < y then x else y
  }

  /** Boxes of positive size collide exactly when they share an interior
      point: any overlap of positive area is a collision, and nothing else is. */
  lemma CollideIffSharedPoint(a: Box, b: Box)
    requires a.w > 0.0 && a.h > 0.0 && b.w > 0.0 && b.h > 0.0
    ensures Collide(a, b) <==> exists px, py :: Inside(a, px, py) && Inside(b, px, py)
  {
    if Collide(a, b) {
      // the centre of the intersection of the two boxes
      var px := (Max(a.cx - a.w / 2.0, b.cx - b.w / 2.0) + Min(a.cx + a.w / 2.0, b.cx + b.w / 2.0)) / 2.0;
      var py := (Max(a.cy - a.h / 2.0, b.cy - b.h / 2.0) + Min(a.cy + a.h / 2.0, b.cy + b.h / 2.0)) / 2.0;
      assert Inside(a, px, py) && Inside(b, px, py);
    }
  }

  /** With no pipes only the floor can end the game. */
  lemma NoPipesOnlyFloor(b: Body)
    ensures GameOver(b, []) <==> Grounded(b)
  {
  }
}
