/** Flap impulse, gravity and position integration of moving bodies. */
module Physics {
  import opened Components

  /** The flap overwrites the vertical velocity with the flap impulse. */
  function Flapped(b: Body): Body
  {
    b.(vy := FLAP_SPEED)
  }

  /** Gravity over a frame of dt seconds lowers the vertical velocity by GRAVITY * dt. */
  function Accelerated(b: Body, dt: real): Body
  {
    b.(vy := b.vy - GRAVITY * dt)
  }

  /** Euler integration with a unit step: the velocity is a per-frame displacement. */
  function Moved(b: Body): Body
  {
    b.(x := b.x + b.vx, y := b.y + b.vy)
  }

  /** Movement applied to every body of a sequence, in order. */
  function MovedAll(bs: seq<Body>): (r: seq<Body>)
    ensures |r| == |bs|
    decreases |bs|
  {
    if |bs| == 0 then [] else MovedAll(bs[..|bs| - 1]) + [Moved(bs[|bs| - 1])]
  }

  /** MovedAll moves each body by its own velocity and keeps the order. */
  lemma {:induction false} MovedAllAt(bs: seq<Body>, k: nat)
    requires k < |bs|
    ensures MovedAll(bs)[k] == Moved(bs[k])
    decreases |bs|
  {
    if k < |bs| - 1 {
      MovedAllAt(bs[..|bs| - 1], k);
    }
  }

  /** A flap sets vy to FLAP_SPEED whatever it was before, and touches nothing else. */
  lemma FlapOverwrites(b: Body, v: real)
    ensures Flapped(b).vy == FLAP_SPEED
    ensures Flapped(b.(vy := v)) == Flapped(b)
    ensures Flapped(b).x == b.x && Flapped(b).y == b.y && Flapped(b).vx == b.vx
  {
  }

  /** Gravity changes vy alone, by exactly GRAVITY * dt, and two frames add up. */
  lemma GravityAdds(b: Body, dt1: real, dt2: real)
    ensures Accelerated(b, dt1).vy == b.vy - GRAVITY * dt1
    ensures Accelerated(b, dt1).(vy := b.vy) == b
    ensures Accelerated(Accelerated(b, dt1), dt2) == Accelerated(b, dt1 + dt2)
  {
  }

  /** Movement integrates x and y independently of each other. */
  lemma MovementIndependentAxes(b: Body, c: Body)
    ensures b.x == c.x && b.vx == c.vx ==> Moved(b).x == Moved(c).x
    ensures b.y == c.y && b.vy == c.vy ==> Moved(b).y == Moved(c).y
    ensures Moved(b).vx == b.vx && Moved(b).vy == b.vy
  {
  }

  /** One in-game frame without a flap: gravity, then movement. */
  function Fell(b: Body, dt: real): Body
  {
    Moved(Accelerated(b, dt))
  }

  /** n consecutive frames without a flap. */
  function FreeFall(b: Body, dt: real, n: nat): Body
    decreases n
  {
    if n == 0 then b else FreeFall(Fell(b, dt), dt, n - 1)
  }

  /** Closed form of free fall: vy drops linearly, x advances linearly. */
  lemma {:induction false} FreeFallVelocity(b: Body, dt: real, n: nat)
    ensures FreeFall(b, dt, n).vy == b.vy - n as real * GRAVITY * dt
    ensures FreeFall(b, dt, n).x == b.x + n as real * b.vx
    ensures FreeFall(b, dt, n).vx == b.vx
    decreases n
  {
    if n > 0 {
      FreeFallVelocity(Fell(b, dt), dt, n - 1);
    }
  }

  /** Once the body moves down by at least one unit per frame, it passes any level. */
  lemma {:induction false} FallsWhileDescending(b: Body, dt: real, level: real)
    requires dt >= 0.0 && b.vy <= -1.0
    ensures exists n: nat :: FreeFall(b, dt, n).y < level
    decreases if b.y < level then 0 else (b.y - level).Floor + 1
  {
    if b.y < level {
      assert FreeFall(b, dt, 0).y < level;
    } else {
      var c := Fell(b, dt);
      FallsWhileDescending(c, dt, level);
      var m: nat :| FreeFall(c, dt, m).y < level;
      assert FreeFall(b, dt, m + 1) == FreeFall(c, dt, m);
    }
  }

  /** Free fall over n + m frames is free fall over n frames followed by m more. */
  lemma {:induction false} FreeFallSplit(b: Body, dt: real, n: nat, m: nat)
    ensures FreeFall(b, dt, n + m) == FreeFall(FreeFall(b, dt, n), dt, m)
    decreases n
  {
    if n > 0 {
      FreeFallSplit(Fell(b, dt), dt, n - 1, m);
    }
  }

  /** The product of two non-negative reals is non-negative (a nonlinear
      step the solver does not take unaided). */
  lemma NonNegativeProduct(a: real, b: real)
    requires a >= 0.0 && b >= 0.0
    ensures a * b >= 0.0
  {
  }

  /** Without flaps, and with frames of positive length, the body eventually
      falls below any level (in particular below the floor line). */
  lemma EventuallyBelow(b: Body, dt: real, level: real)
    requires dt > 0.0
    ensures exists n: nat :: FreeFall(b, dt, n).y < level
  {
    if b.vy <= -1.0 {
      FallsWhileDescending(b, dt, level);
    } else {
      // enough frames for gravity to bring vy down to -1 or below
      var g := GRAVITY * dt;
      var q := (b.vy + 1.0) / g;
      assert q * g == b.vy + 1.0;
      assert q > 0.0;
      var n: nat := q.Floor + 1;
      assert n as real * g >= q * g by {
        NonNegativeProduct(n as real - q, g);
      }
      FreeFallVelocity(b, dt, n);
      var c := FreeFall(b, dt, n);
      assert c.vy <= -1.0;
      FallsWhileDescending(c, dt, level);
      var m: nat :| FreeFall(c, dt, m).y < level;
      FreeFallSplit(b, dt, n, m);
      assert FreeFall(b, dt, n + m).y < level;
    }
  }
}
