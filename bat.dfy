/** A player's bat (src/bat.rs): moved up and down by two keys, with a collider
 *  rectangle that follows it and a score that only the ball changes. */
module Bats {
  import opened Screen

  /** Pixels per second. */
  const PLAYER_SPEED: real := 500.0

  /** Where `update` places the collider relative to the bat's top-left corner,
   *  and the collider's size. */
  const COLLIDER_DX: real := 70.0
  const COLLIDER_DY: real := 15.0
  const COLLIDER_W: real := 20.0
  const COLLIDER_H: real := 125.0

  datatype BatVal = BatVal(position: Vec2, sprite: Image, collider: Rect, score: nat)

  /** The y at which the bat's sprite touches the bottom of the screen. */
  function Lowest(b: BatVal): real
  {
    SCREEN_HEIGHT - b.sprite.height as real
  }

  /** `Bat::new`: the collider starts to the right of the sprite, at the bat's height. */
  function Created(pos: Vec2, sprite: Image): (r: BatVal)
    ensures r.position == pos && r.sprite == sprite && r.score == 0
    ensures r.collider == Rect(pos.x + sprite.width as real, pos.y, COLLIDER_W, COLLIDER_H)
  {
    BatVal(pos, sprite, Rect(pos.x + sprite.width as real, pos.y, COLLIDER_W, COLLIDER_H), 0)
  }

  /** `move_up`: snaps to the top edge only when already at or above it; otherwise
   *  moves a full step, which may overshoot the edge. */
  function MovedUp(b: BatVal, dt: real): (r: BatVal)
    ensures r == b.(position := Vec2(b.position.x, r.position.y))
    ensures b.position.y <= 0.0 ==> r.position.y == 0.0
    ensures b.position.y > 0.0 ==> r.position.y == b.position.y - PLAYER_SPEED * dt
    ensures b.position.y >= 0.0 && dt >= 0.0 ==>
              -PLAYER_SPEED * dt <= r.position.y <= b.position.y
  {
    if b.position.y <= 0.0 then
      b.(position := b.position.(y := 0.0))
    else
      b.(position := b.position.(y := b.position.y - PLAYER_SPEED * dt))
  }

  /** `move_down`: the mirror image of `MovedUp` against the bottom edge. */
  function MovedDown(b: BatVal, dt: real): (r: BatVal)
    ensures r == b.(position := Vec2(b.position.x, r.position.y))
    ensures b.position.y >= Lowest(b) ==> r.position.y == Lowest(b)
    ensures b.position.y < Lowest(b) ==> r.position.y == b.position.y + PLAYER_SPEED * dt
    ensures b.position.y <= Lowest(b) && dt >= 0.0 ==>
              b.position.y <= r.position.y <= Lowest(b) + PLAYER_SPEED * dt
  {
    if b.position.y >= Lowest(b) then
      b.(position := b.position.(y := Lowest(b)))
    else
      b.(position := b.position.(y := b.position.y + PLAYER_SPEED * dt))
  }

  /** `Bat::update`: the up key is applied before the down key, then the collider
   *  is moved to its place relative to the bat. */
  function Updated(b: BatVal, dt: real, up: bool, down: bool): (r: BatVal)
    ensures r.position.x == b.position.x && r.sprite == b.sprite && r.score == b.score
    ensures !up && !down ==> r.position == b.position
    ensures up && !down ==> r.position == MovedUp(b, dt).position
    ensures !up && down ==> r.position == MovedDown(b, dt).position
    ensures up && down ==> r.position == MovedDown(MovedUp(b, dt), dt).position
    ensures r.collider == Rect(r.position.x + COLLIDER_DX, r.position.y + COLLIDER_DY,
                               b.collider.w, b.collider.h)
  {
    var afterUp := if up then MovedUp(b, dt) else b;
    var moved := if down then MovedDown(afterUp, dt) else afterUp;
    moved.(collider := moved.collider.MoveTo(
      Vec2(moved.position.x + COLLIDER_DX, moved.position.y + COLLIDER_DY)))
  }

  /** The bat never strays further from the screen than one step of at most
   *  `maxDt` seconds can take it. */
  ghost predicate WithinOneStep(b: BatVal, maxDt: real)
  {
    -PLAYER_SPEED * maxDt <= b.position.y <= Lowest(b) + PLAYER_SPEED * maxDt
  }

  /** The clamp the bat does keep: if every frame lasts at most `maxDt`, the bat
   *  stays within one step of the screen, whatever keys are held. */
  lemma UpdateStaysWithinOneStep(b: BatVal, dt: real, maxDt: real, up: bool, down: bool)
    requires 0.0 <= dt <= maxDt
    requires b.sprite.height as real <= SCREEN_HEIGHT
    requires WithinOneStep(b, maxDt)
    ensures WithinOneStep(Updated(b, dt, up, down), maxDt)
  {
  }

  /** The clamp the bat does not keep: a bat on the screen can leave it in one
   *  update, since `move_up` only snaps when the bat is already at the edge. */
  lemma UpdateCanLeaveScreen()
    ensures var b := Created(Vec2(0.0, 1.0), Image(160, 160));
            var r := Updated(b, 0.01, true, false);
            0.0 <= b.position.y <= Lowest(b) && r.position.y < 0.0
  {
  }

  /** A bat as the game holds it: position and collider updated in place. */
  class Bat {
    var position: Vec2
    const sprite: Image
    var collider: Rect
    var score: nat

    ghost function Model(): BatVal
      reads this
    {
      BatVal(position, sprite, collider, score)
    }

    constructor (pos: Vec2, sprite: Image)
      ensures Model() == Created(pos, sprite)
    {
      position := pos;
      this.sprite := sprite;
      collider := Rect(pos.x + sprite.width as real, pos.y, COLLIDER_W, COLLIDER_H);
      score := 0;
    }

    method MoveUp(dt: real)
      modifies this
      ensures Model() == MovedUp(old(Model()), dt)
    {
      if position.y <= 0.0 {
        position := position.(y := 0.0);
      } else {
        position := position.(y := position.y - PLAYER_SPEED * dt);
      }
    }

    method MoveDown(dt: real)
      modifies this
      ensures Model() == MovedDown(old(Model()), dt)
    {
      if position.y >= SCREEN_HEIGHT - sprite.height as real {
        position := position.(y := SCREEN_HEIGHT - sprite.height as real);
      } else {
        position := position.(y := position.y + PLAYER_SPEED * dt);
      }
    }

    /** `up` and `down` are whether the bat's two keys are held this frame. */
    method Update(dt: real, up: bool, down: bool)
      modifies this
      ensures Model() == Updated(old(Model()), dt, up, down)
    {
      if up {
        MoveUp(dt);
      }
      if down {
        MoveDown(dt);
      }
      collider := collider.(x := position.x, y := position.y);
      collider := collider.MoveTo(Vec2(position.x + COLLIDER_DX, position.y + COLLIDER_DY));
    }
  }
}
