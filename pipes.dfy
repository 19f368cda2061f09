/** The pipe pipeline: pairs of pipes around a gap appear at the right edge,
    drift left, and are retired once past the left edge. */
module Pipes {
  import opened Components
  import opened Collision
  import Physics

  /** gap_bottom is drawn from the half-open range [GAP_BOTTOM_MIN, GAP_BOTTOM_MAX). */
  const GAP_BOTTOM_MIN: real := -WINDOW_HEIGHT / 2.0 + MIN_PIPE_OFFSET
  const GAP_BOTTOM_MAX: real := WINDOW_HEIGHT / 2.0 - MIN_PIPE_OFFSET - PIPE_GAP
  /** A pipe whose x is below this line has wholly left the window on the left. */
  const RETIRE_LINE: real := -WINDOW_WIDTH / 2.0 - PIPE_WIDTH

  predicate GapBottomInRange(g: real)
  {
    GAP_BOTTOM_MIN <= g < GAP_BOTTOM_MAX
  }

  /** The upper pipe is drawn flipped and anchored at gap_top + PIPE_HEIGHT. */
  function UpperPipe(gapBottom: real): Pipe
  {
    Body(PIPE_SPAWN_X, gapBottom + PIPE_GAP + PIPE_HEIGHT, -SPEED, 0.0)
  }

  function LowerPipe(gapBottom: real): Pipe
  {
    Body(PIPE_SPAWN_X, gapBottom, -SPEED, 0.0)
  }

  /** The two pipes one spawn creates, upper first. */
  function SpawnedPair(gapBottom: real): seq<Pipe>
  {
    [UpperPipe(gapBottom), LowerPipe(gapBottom)]
  }

  /** The lower and upper edges of a pipe's collision box. */
  function BoxBottom(p: Pipe): real
  {
    PipeBox(p).cy - PipeBox(p).h / 2.0
  }

  function BoxTop(p: Pipe): real
  {
    PipeBox(p).cy + PipeBox(p).h / 2.0
  }

  /** What holds of a pair from its spawn on: one column, one constant
      leftward velocity, and a gap of PIPE_GAP between the boxes whose
      bottom is in the spawn range. */
  predicate PairOK(upper: Pipe, lower: Pipe)
  {
    && upper.x == lower.x
    && upper.vx == -SPEED && lower.vx == -SPEED
    && upper.vy == 0.0 && lower.vy == 0.0
    && BoxBottom(upper) - BoxTop(lower) == PIPE_GAP
    && GapBottomInRange(BoxTop(lower))
  }

  /** The pipes, in spawn order, form consecutive well-formed pairs. */
  predicate Paired(ps: seq<Pipe>)
    decreases |ps|
  {
    || |ps| == 0
    || (|ps| >= 2 && PairOK(ps[|ps| - 2], ps[|ps| - 1]) && Paired(ps[..|ps| - 2]))
  }

  /** A pipe survives removal unless it has passed the retire line, PIPE_WIDTH
      left of the window's left edge. Pipes spawn right of the window, so this
      says nothing about being visible. */
  predicate BeforeRetireLine(p: Pipe)
  {
    p.x >= RETIRE_LINE
  }

  /** The pipes that survive one removal pass, in their original order. */
  function Retained(ps: seq<Pipe>): seq<Pipe>
    decreases |ps|
  {
    if |ps| == 0 then []
    else Retained(ps[..|ps| - 1]) + (if BeforeRetireLine(ps[|ps| - 1]) then [ps[|ps| - 1]] else [])
  }

  /** The spawn range is the non-empty interval [-250, 100). */
  lemma GapRange()
    ensures GAP_BOTTOM_MIN == -250.0 && GAP_BOTTOM_MAX == 100.0
    ensures GapBottomInRange(GAP_BOTTOM_MIN)
    ensures RETIRE_LINE == -278.0
  {
  }

  /** A spawn makes two pipes at the right of the window moving left at SPEED;
      the gap between their boxes is exactly PIPE_GAP and keeps at least
      MIN_PIPE_OFFSET from the top and bottom of the window. */
  lemma SpawnedPairProperties(g: real)
    requires GapBottomInRange(g)
    ensures |SpawnedPair(g)| == 2
    ensures var upper, lower := SpawnedPair(g)[0], SpawnedPair(g)[1];
            && upper.x == PIPE_SPAWN_X && lower.x == PIPE_SPAWN_X
            && upper.vx == -SPEED && upper.vy == 0.0 && lower.vx == -SPEED && lower.vy == 0.0
            && BoxTop(lower) == g
            && BoxBottom(upper) == g + PIPE_GAP
            && BoxBottom(upper) - BoxTop(lower) == PIPE_GAP
            && -WINDOW_HEIGHT / 2.0 + MIN_PIPE_OFFSET <= BoxTop(lower)
            && BoxBottom(upper) < WINDOW_HEIGHT / 2.0 - MIN_PIPE_OFFSET
            && PairOK(upper, lower)
            && PIPE_SPAWN_X > WINDOW_WIDTH / 2.0
            && BeforeRetireLine(upper) && BeforeRetireLine(lower)
  {
  }

  /** A pipe is retained if and only if it was there and has not passed the retire line. */
  lemma {:induction false} RetainedMembership(ps: seq<Pipe>, p: Pipe)
    ensures p in Retained(ps) <==> p in ps && BeforeRetireLine(p)
    decreases |ps|
  {
    if |ps| > 0 {
      var init := ps[..|ps| - 1];
      RetainedMembership(init, p);
      assert ps == init + [ps[|ps| - 1]];
    }
  }

  /** Removal works element by element and keeps the order: removing from a
      concatenation concatenates the results. */
  lemma {:induction false} RetainedAppend(ps: seq<Pipe>, qs: seq<Pipe>)
    ensures Retained(ps + qs) == Retained(ps) + Retained(qs)
    decreases |qs|
  {
    if |qs| == 0 {
      assert ps + qs == ps;
    } else {
      var init := qs[..|qs| - 1];
      RetainedAppend(ps, init);
      assert (ps + qs)[..|ps + qs| - 1] == ps + init;
      assert (ps + qs)[|ps + qs| - 1] == qs[|qs| - 1];
    }
  }

  /** Pipes that have not passed the retire line are never retired. */
  lemma {:induction false} RetainedAllBeforeRetireLine(ps: seq<Pipe>)
    requires forall i :: 0 <= i < |ps| ==> BeforeRetireLine(ps[i])
    ensures Retained(ps) == ps
    decreases |ps|
  {
    if |ps| > 0 {
      RetainedAllBeforeRetireLine(ps[..|ps| - 1]);
    }
  }

  /** A freshly spawned pair is not retired, so removing then spawning is the
      same as spawning then removing. */
  lemma RemoveSpawnCommute(ps: seq<Pipe>, g: real)
    requires GapBottomInRange(g)
    ensures Retained(ps + SpawnedPair(g)) == Retained(ps) + SpawnedPair(g)
  {
    RetainedAppend(ps, SpawnedPair(g));
    RetainedAllBeforeRetireLine(SpawnedPair(g));
  }

  /** Spawning appends a well-formed pair. */
  lemma SpawnKeepsPairs(ps: seq<Pipe>, g: real)
    requires Paired(ps) && GapBottomInRange(g)
    ensures Paired(ps + SpawnedPair(g))
  {
    var qs := ps + SpawnedPair(g);
    assert qs[..|qs| - 2] == ps;
  }

  /** Both pipes of a pair share their x, so removal takes both or neither. */
  lemma {:induction false} RetainedKeepsPairs(ps: seq<Pipe>)
    requires Paired(ps)
    ensures Paired(Retained(ps))
    decreases |ps|
  {
    if |ps| > 0 {
      var n := |ps|;
      var init := ps[..n - 2];
      RetainedKeepsPairs(init);
      RetainedAppend(init, ps[n - 2..]);
      assert ps == init + ps[n - 2..];
      var u, l := ps[n - 2], ps[n - 1];
      assert ps[n - 2..] == [u, l];
      assert [u, l][..1] == [u];
      assert [u][..0] == [];
      assert Retained([u]) == (if BeforeRetireLine(u) then [u] else []);
      assert Retained([u, l]) == Retained([u]) + (if BeforeRetireLine(l) then [l] else []);
      var r := Retained(ps);
      if BeforeRetireLine(u) {
        assert r == Retained(init) + [u, l];
        assert r[..|r| - 2] == Retained(init);
      } else {
        assert r == Retained(init);
      }
    }
  }

  /** Movement shifts both pipes of a pair alike, so pairs stay well formed. */
  lemma {:induction false} MovedKeepsPairs(ps: seq<Pipe>)
    requires Paired(ps)
    ensures Paired(Physics.MovedAll(ps))
    decreases |ps|
  {
    if |ps| > 0 {
      var n := |ps|;
      MovedKeepsPairs(ps[..n - 2]);
      assert ps[..n - 1][..n - 2] == ps[..n - 2];
      var m := Physics.MovedAll(ps);
      Physics.MovedAllAt(ps, n - 2);
      Physics.MovedAllAt(ps, n - 1);
      assert m[..n - 2] == Physics.MovedAll(ps[..n - 2]);
    }
  }

  /** The column of a pair, once the bird's box overlaps it horizontally, is
      passed without a collision exactly when the bird's box lies within the
      gap, or wholly above the upper pipe or below the lower pipe. */
  lemma ClearOfPairIffInGap(b: Body, upper: Pipe, lower: Pipe)
    requires PairOK(upper, lower)
    requires b.x - PLAYER_BOX_SIZE / 2.0 < lower.x + PIPE_WIDTH && lower.x < b.x + PLAYER_BOX_SIZE / 2.0
    ensures var bird := PlayerBox(b);
            var bottom, top := b.y - PLAYER_BOX_SIZE / 2.0, b.y + PLAYER_BOX_SIZE / 2.0;
            (!Collide(bird, PipeBox(upper)) && !Collide(bird, PipeBox(lower)))
            <==> (BoxTop(lower) <= bottom && top <= BoxBottom(upper))
                 || BoxTop(upper) <= bottom
                 || top <= BoxBottom(lower)
  {
  }

  /** A pipe after n frames of movement. */
  function Drifted(p: Pipe, n: nat): Pipe
    decreases n
  {
    if n == 0 then p else Physics.Moved(Drifted(p, n - 1))
  }

  lemma {:induction false} DriftedPosition(p: Pipe, n: nat)
    ensures Drifted(p, n) == p.(x := p.x + n as real * p.vx, y := p.y + n as real * p.vy)
    decreases n
  {
    if n > 0 {
      DriftedPosition(p, n - 1);
      assert (n - 1) as real * p.vx + p.vx == n as real * p.vx;
      assert (n - 1) as real * p.vy + p.vy == n as real * p.vy;
    }
  }

  /** No pipe stays forever: one moving left at SPEED passes the retire line. */
  lemma EventuallyPastRetireLine(p: Pipe)
    requires p.vx == -SPEED
    ensures exists n: nat :: !BeforeRetireLine(Drifted(p, n))
  {
    var n: nat := if p.x < RETIRE_LINE then 0 else ((p.x - RETIRE_LINE) / SPEED).Floor + 1;
    DriftedPosition(p, n);
    assert !BeforeRetireLine(Drifted(p, n));
  }
}
