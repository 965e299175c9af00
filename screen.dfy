/** The screen the game is played on, and the small value types that the
 *  game's entities share: points and vectors, axis-aligned rectangles,
 *  image sizes and sprite handles. */
module Screen {

  /** Window size, in pixels (src/main.rs). */
  const SCREEN_WIDTH: real := 800.0
  const SCREEN_HEIGHT: real := 480.0

  datatype Option<T> = None | Some(value: T)

  /** A point or a vector of the plane; y grows downwards. */
  datatype Vec2 = Vec2(x: real, y: real)

  /** The centre of the screen, where the ball starts and restarts. */
  const CENTRE: Vec2 := Vec2(SCREEN_WIDTH / 2.0, SCREEN_HEIGHT / 2.0)

  function Abs(r: real): (a: real)
    ensures a >= 0.0 && (a == r || a == -r)
  {
    if r < 0.0 then -r else r
  }

  /** An axis-aligned rectangle anchored at its top-left corner. */
  datatype Rect = Rect(x: real, y: real, w: real, h: real)
  {
    function Left(): real { x }
    function Right(): real { x + w }
    function Top(): real { y }
    function Bottom(): real { y + h }

    /** Moves the top-left corner to `p`, keeping the size. */
    function MoveTo(p: Vec2): Rect { this.(x := p.x, y := p.y) }

    /** Two rectangles overlap when they share at least one point, edges included. */
    predicate Overlaps(other: Rect)
    {
      Left() <= other.Right() && Right() >= other.Left() &&
      Top() <= other.Bottom() && Bottom() >= other.Top()
    }
  }

  /** The size of a loaded image, in pixels; the pixels themselves are not modelled. */
  datatype Image = Image(width: nat, height: nat)

  /** An opaque handle to one frame of an animation. */
  datatype Sprite = Sprite(id: nat)
}
