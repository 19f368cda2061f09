/** Infinite scrolling of the floor and backdrop tiles: each layer is two
    segments of one width that move left and jump right by two widths. */
module Scrolling {
  import opened Components

  /** A segment is wrapped once its x has passed this line. */
  function WrapLine(s: Segment): real
  {
    -WINDOW_WIDTH / 2.0 - s.width
  }

  function Wrapped(s: Segment): Segment
  {
    if s.x < WrapLine(s) then s.(x := s.x + s.width * 2.0) else s
  }

  /** One frame of scrolling: move by the segment's speed, then wrap. */
  function Scrolled(s: Segment): Segment
  {
    Wrapped(s.(x := s.x + s.speed))
  }

  /** One frame of scrolling for every segment of a sequence, in order. */
  function ScrolledAll(segs: seq<Segment>): (r: seq<Segment>)
    ensures |r| == |segs|
    decreases |segs|
  {
    if |segs| == 0 then [] else ScrolledAll(segs[..|segs| - 1]) + [Scrolled(segs[|segs| - 1])]
  }

  /** ScrolledAll scrolls each segment on its own and keeps the order. */
  lemma {:induction false} ScrolledAllAt(segs: seq<Segment>, k: nat)
    requires k < |segs|
    ensures ScrolledAll(segs)[k] == Scrolled(segs[k])
    decreases |segs|
  {
    if k < |segs| - 1 {
      ScrolledAllAt(segs[..|segs| - 1], k);
    }
  }

  /** n frames of scrolling. */
  function ScrolledN(s: Segment, n: nat): Segment
    decreases n
  {
    if n == 0 then s else Scrolled(ScrolledN(s, n - 1))
  }

  /** x lies between the wrap line and two widths to its right. */
  predicate InWindow(s: Segment)
  {
    WrapLine(s) <= s.x <= WrapLine(s) + 2.0 * s.width
  }

  /** Moves left, and by at most two widths per frame. */
  predicate SlowEnough(s: Segment)
  {
    -2.0 * s.width <= s.speed <= 0.0
  }

  /** The two segments of one layer: same width, speed and height, one width apart. */
  predicate Layer(a: Segment, b: Segment)
  {
    && a.width == b.width && a.speed == b.speed && a.y == b.y && a.width > 0.0
    && (a.x - b.x == a.width || b.x - a.x == a.width)
  }

  /** Scrolling changes x only. */
  lemma ScrolledChangesOnlyX(s: Segment)
    ensures Scrolled(s).(x := s.x) == s
  {
  }

  /** A segment that scrolls leftward by at most two widths never ends a frame
      left of the wrap line, nor more than two widths right of it. */
  lemma ScrolledStaysInWindow(s: Segment)
    requires SlowEnough(s)
    ensures s.x >= WrapLine(s) ==> Scrolled(s).x >= WrapLine(s)
    ensures InWindow(s) ==> InWindow(Scrolled(s))
  {
  }

  /** Wrapping a second time without moving in between changes nothing. */
  lemma WrapIdempotent(s: Segment)
    requires s.x >= WrapLine(s) - 2.0 * s.width
    ensures Wrapped(Wrapped(s)) == Wrapped(s)
  {
  }

  /** For two segments of one width and speed, a frame changes the difference
      of their x positions by a multiple of two widths: the difference is
      invariant modulo 2 * width. */
  lemma OffsetInvariantModuloTwoWidths(a: Segment, b: Segment)
    requires a.width == b.width && a.speed == b.speed
    ensures var d, d' := a.x - b.x, Scrolled(a).x - Scrolled(b).x;
            d' == d || d' == d + 2.0 * a.width || d' == d - 2.0 * a.width
  {
  }

  /** A frame keeps the two segments of a layer exactly one width apart,
      whatever the speed: there is never a seam or an overlap. */
  lemma ScrolledKeepsLayer(a: Segment, b: Segment)
    requires Layer(a, b)
    ensures Layer(Scrolled(a), Scrolled(b))
  {
  }

  /** ... and so does any number of frames. */
  lemma {:induction false} LayerForever(a: Segment, b: Segment, n: nat)
    requires Layer(a, b)
    ensures Layer(ScrolledN(a, n), ScrolledN(b, n))
    decreases n
  {
    if n > 0 {
      LayerForever(a, b, n - 1);
      ScrolledKeepsLayer(ScrolledN(a, n - 1), ScrolledN(b, n - 1));
    }
  }

  /** The floor layer as created at startup. */
  function FloorLayout(): seq<Segment>
  {
    [ Segment(-WINDOW_WIDTH / 2.0 + FLOOR_SEGMENT_WIDTH, -WINDOW_HEIGHT / 2.0 + FLOOR_HEIGHT, FLOOR_SEGMENT_WIDTH, -SPEED),
      Segment(-WINDOW_WIDTH / 2.0, -WINDOW_HEIGHT / 2.0 + FLOOR_HEIGHT, FLOOR_SEGMENT_WIDTH, -SPEED) ]
  }

  /** The backdrop layer as created at startup: it scrolls at a fifth of the pipe speed. */
  function BackgroundLayout(): seq<Segment>
  {
    [ Segment(-WINDOW_WIDTH / 2.0 + BACKGROUND_SEGMENT_WIDTH, WINDOW_HEIGHT / 2.0, BACKGROUND_SEGMENT_WIDTH, -SPEED * 0.2),
      Segment(-WINDOW_WIDTH / 2.0, WINDOW_HEIGHT / 2.0, BACKGROUND_SEGMENT_WIDTH, -SPEED * 0.2) ]
  }

  /** Floor then backdrop, in creation order. */
  function InitialSegments(): seq<Segment>
  {
    FloorLayout() + BackgroundLayout()
  }

  /** The scrolling state the world keeps: a floor layer then a backdrop
      layer, every segment in its window and slow enough. */
  predicate LayersOK(segs: seq<Segment>)
  {
    && |segs| == 4
    && Layer(segs[0], segs[1]) && Layer(segs[2], segs[3])
    && forall i :: 0 <= i < |segs| ==> InWindow(segs[i]) && SlowEnough(segs[i])
  }

  /** The startup layout is seamless, starts in the window, and the backdrop
      is slower than the floor. */
  lemma InitialLayersOK()
    ensures LayersOK(InitialSegments())
    ensures InitialSegments()[2].speed == InitialSegments()[0].speed * 0.2
  {
  }

  /** Scrolling every segment by one frame keeps the layer invariant. */
  lemma ScrolledLayersOK(segs: seq<Segment>)
    requires LayersOK(segs)
    ensures LayersOK(ScrolledAll(segs))
  {
    var next := ScrolledAll(segs);
    forall i | 0 <= i < |segs|
      ensures |next| == |segs| && next[i] == Scrolled(segs[i]) && InWindow(next[i]) && SlowEnough(next[i])
    {
      ScrolledAllAt(segs, i);
      ScrolledStaysInWindow(segs[i]);
    }
    ScrolledKeepsLayer(segs[0], segs[1]);
    ScrolledKeepsLayer(segs[2], segs[3]);
  }
}
