/** The ball (src/ball.rs): moves in a straight line, bounces off the top and
 *  bottom of the screen, speeds up over time, turns back from the bats, and
 *  scores a goal for a bat when it leaves the screen on the far side. */
module Balls {
  import opened Screen
  import Impacts
  import Bats

  /** The range of each component of a freshly drawn velocity, in pixels per second. */
  const MAX_VELOCITY: real := 250.0
  const MIN_VELOCITY: real := 150.0
  /** The ball speeds up on every frame whose number is a multiple of this. */
  const BALL_SPEED_UPDATE_RATE: nat := 100
  const SPEED_STEP: real := 0.1
  const MAX_SPEED: real := 3.0
  const START_SPEED: real := 1.0
  /** The ball's collider is a square of this side. */
  const BALL_SIZE: real := 24.0
  /** An impact is drawn this far to the left of the ball. */
  const IMPACT_OFFSET: real := 10.0

  /** One draw of the random generator: the two magnitudes and whether to
   *  negate each component. */
  datatype StartDraw = StartDraw(magX: real, magY: real, flipX: bool, flipY: bool)

  predicate ValidDraw(d: StartDraw)
  {
    MIN_VELOCITY <= d.magX < MAX_VELOCITY && MIN_VELOCITY <= d.magY < MAX_VELOCITY
  }

  /** The draws the source's generator can produce: magnitudes in [150, 250). */
  type Draw = d: StartDraw | ValidDraw(d) witness StartDraw(MIN_VELOCITY, MIN_VELOCITY, false, false)

  /** Every component of a start velocity lies in [MIN_VELOCITY, MAX_VELOCITY) in size. */
  ghost predicate StartSized(v: Vec2)
  {
    MIN_VELOCITY <= Abs(v.x) < MAX_VELOCITY && MIN_VELOCITY <= Abs(v.y) < MAX_VELOCITY
  }

  /** The velocity `random_start_vec` builds from a draw. */
  function StartVec(d: Draw): (v: Vec2)
    ensures StartSized(v)
    ensures Abs(v.x) == d.magX && Abs(v.y) == d.magY
    ensures (v.x < 0.0 <==> d.flipX) && (v.y < 0.0 <==> d.flipY)
  {
    Vec2(if d.flipX then -d.magX else d.magX, if d.flipY then -d.magY else d.magY)
  }

  /** `random_start_vec`, with the generator's output passed in. */
  method RandomStartVec(d: Draw) returns (v: Vec2)
    ensures StartSized(v) && (v.x < 0.0 <==> d.flipX) && (v.y < 0.0 <==> d.flipY)
    ensures v == StartVec(d)
  {
    var velocityX := d.magX;
    var velocityY := d.magY;
    if d.flipX {
      velocityX := velocityX * -1.0;
    }
    if d.flipY {
      velocityY := velocityY * -1.0;
    }
    v := Vec2(velocityX, velocityY);
  }

  datatype BallVal = BallVal(
    position: Vec2,
    velocity: Vec2,
    speed: real,
    collider: Rect,
    impact: Option<Impacts.ImpactVal>)

  /** What holds of every ball the game produces: each velocity component keeps
   *  the size it was drawn with, the speed multiplier lies in [1, 3], the collider
   *  keeps its size and an impact, if any, shows the right sprite. */
  ghost predicate Inv(b: BallVal)
  {
    StartSized(b.velocity) &&
    START_SPEED <= b.speed <= MAX_SPEED &&
    b.collider.w == BALL_SIZE && b.collider.h == BALL_SIZE &&
    (b.impact.Some? ==> Impacts.Inv(b.impact.value))
  }

  /** `Ball::new`. */
  function Created(pos: Vec2, d: Draw): (r: BallVal)
    ensures Inv(r) && r.position == pos && r.impact == None
    ensures r.speed == START_SPEED && r.velocity == StartVec(d)
    ensures r.collider == Rect(pos.x, pos.y, BALL_SIZE, BALL_SIZE)
  {
    BallVal(pos, StartVec(d), START_SPEED, Rect(pos.x, pos.y, BALL_SIZE, BALL_SIZE), None)
  }

  /** `reset`: back to the centre at the start speed with a new velocity; the
   *  collider and the impact are left where they were. */
  function ResetTo(b: BallVal, d: Draw): (r: BallVal)
    ensures r.position == CENTRE && r.speed == START_SPEED && r.velocity == StartVec(d)
    ensures r.collider == b.collider && r.impact == b.impact
    ensures Inv(b) ==> Inv(r)
  {
    b.(position := CENTRE, speed := START_SPEED, velocity := StartVec(d))
  }

  /** Whether the collider, moving vertically at `vy`, is past the top or bottom
   *  edge it is heading for. */
  predicate HitsWall(vy: real, c: Rect)
  {
    (vy < 0.0 && c.Top() < 0.0) || (vy > 0.0 && c.Bottom() > SCREEN_HEIGHT)
  }

  /** `Ball::update` for a frame of `dt` seconds numbered `ticks`. */
  function Updated(b: BallVal, dt: real, ticks: nat): (r: BallVal)
    // integration, with the collider following the ball
    ensures r.position == Vec2(b.position.x + b.velocity.x * b.speed * dt,
                               b.position.y + b.velocity.y * b.speed * dt)
    ensures r.collider == b.collider.(x := r.position.x, y := r.position.y)
    ensures r.impact == b.impact
    // wall bounce: only the vertical direction, and only when heading past an edge
    ensures r.velocity.x == b.velocity.x && Abs(r.velocity.y) == Abs(b.velocity.y)
    ensures r.velocity.y != b.velocity.y <==> HitsWall(b.velocity.y, r.collider)
    ensures b.collider.h <= SCREEN_HEIGHT && r.collider.Top() < 0.0 ==> r.velocity.y >= 0.0
    ensures b.collider.h <= SCREEN_HEIGHT && r.collider.Bottom() > SCREEN_HEIGHT ==> r.velocity.y <= 0.0
    // speed ramp: up by SPEED_STEP on every BALL_SPEED_UPDATE_RATE-th frame, capped
    ensures r.speed <= MAX_SPEED
    ensures b.speed <= MAX_SPEED ==> b.speed <= r.speed
    ensures b.speed <= MAX_SPEED && ticks % BALL_SPEED_UPDATE_RATE != 0 ==> r.speed == b.speed
    ensures ticks % BALL_SPEED_UPDATE_RATE == 0 && b.speed + SPEED_STEP <= MAX_SPEED ==>
              r.speed == b.speed + SPEED_STEP
    ensures ticks % BALL_SPEED_UPDATE_RATE == 0 && b.speed + SPEED_STEP >= MAX_SPEED ==>
              r.speed == MAX_SPEED
    ensures Inv(b) ==> Inv(r)
  {
    var pos := Vec2(b.position.x + (b.velocity.x * b.speed) * dt,
                    b.position.y + (b.velocity.y * b.speed) * dt);
    var col := b.collider.(x := pos.x, y := pos.y);
    var vy := if HitsWall(b.velocity.y, col) then b.velocity.y * -1.0 else b.velocity.y;
    var sped := if ticks % BALL_SPEED_UPDATE_RATE == 0 then b.speed + SPEED_STEP else b.speed;
    var capped := if sped >= MAX_SPEED then MAX_SPEED else sped;
    b.(position := pos, velocity := b.velocity.(y := vy), speed := capped, collider := col)
  }

  /** Whether a goal is scored when the ball is checked against bat 1 (`isBat1`)
   *  or bat 2: past the left edge against bat 2, past the right edge against bat 1. */
  predicate GoalFor(b: BallVal, isBat1: bool)
  {
    (b.position.x < 0.0 && !isBat1) || (b.position.x > SCREEN_WIDTH && isBat1)
  }

  /** Horizontal velocity pointing away from the bat: rightwards from bat 1,
   *  leftwards from bat 2. */
  function AwayFrom(vx: real, isBat1: bool): (r: real)
    ensures Abs(r) == Abs(vx)
    ensures isBat1 ==> r >= 0.0
    ensures !isBat1 ==> r <= 0.0
  {
    if isBat1 then Abs(vx) else -Abs(vx)
  }

  /** `collision_with_bat` against `bat`, which is bat 1 when `isBat1`: returns
   *  the new ball and the new bat. `frames` are the impact sprites and `d` the
   *  draw used if the ball is reset. */
  function Collided(b: BallVal, bat: Bats.BatVal, isBat1: bool, frames: seq<Sprite>, d: Draw)
    : (r: (BallVal, Bats.BatVal))
    requires |frames| > 0
    // only the score of the bat can change, and by one exactly when a goal is scored
    ensures r.1 == bat.(score := r.1.score)
    ensures r.1.score == if GoalFor(b, isBat1) then bat.score + 1 else bat.score
    // a goal resets the ball
    ensures GoalFor(b, isBat1) ==>
              r.0.position == CENTRE && r.0.speed == START_SPEED && r.0.velocity == StartVec(d)
    // otherwise it stays put, and an overlap only forces the direction of vx
    ensures !GoalFor(b, isBat1) ==>
              r.0.position == b.position && r.0.speed == b.speed && r.0.velocity.y == b.velocity.y
    ensures !GoalFor(b, isBat1) && b.collider.Overlaps(bat.collider) ==>
              r.0.velocity.x == AwayFrom(b.velocity.x, isBat1)
    ensures !b.collider.Overlaps(bat.collider) ==>
              r.0 == (if GoalFor(b, isBat1) then ResetTo(b, d) else b).(impact := r.0.impact)
    ensures r.0.collider == b.collider
    // the impact: replaced by a fresh one on an overlap, then advanced once
    ensures b.collider.Overlaps(bat.collider) ==>
              r.0.impact == Some(Impacts.Animated(Impacts.Fresh(
                Vec2(b.position.x - IMPACT_OFFSET, b.position.y), frames)))
    ensures !b.collider.Overlaps(bat.collider) ==>
              r.0.impact == (if b.impact.Some? then Some(Impacts.Animated(b.impact.value)) else None)
    ensures Inv(b) ==> Inv(r.0)
  {
    var hit := b.collider.Overlaps(bat.collider);
    var struck :=
      if hit then
        b.(impact := Some(Impacts.Fresh(Vec2(b.position.x - IMPACT_OFFSET, b.position.y), frames)),
           velocity := b.velocity.(x := AwayFrom(b.velocity.x, isBat1)))
      else b;
    var animated :=
      if struck.impact.Some? then struck.(impact := Some(Impacts.Animated(struck.impact.value)))
      else struck;
    if animated.position.x < 0.0 && !isBat1 then
      (ResetTo(animated, d), bat.(score := bat.score + 1))
    else if animated.position.x > SCREEN_WIDTH && isBat1 then
      (ResetTo(animated, d), bat.(score := bat.score + 1))
    else
      (animated, bat)
  }

  /** Checking the same bat twice in a row without a goal: the second check
   *  changes neither the velocity nor the score, since the direction is forced
   *  rather than flipped. */
  lemma CollisionIdempotentOnVelocity(b: BallVal, bat: Bats.BatVal, isBat1: bool,
                                      frames: seq<Sprite>, d1: Draw, d2: Draw)
    requires |frames| > 0
    requires !GoalFor(b, isBat1)
    ensures var once := Collided(b, bat, isBat1, frames, d1);
            var twice := Collided(once.0, once.1, isBat1, frames, d2);
            twice.0.velocity == once.0.velocity && twice.1 == once.1
  {
  }

  /** A ball as the game holds it, with the impact it owns, if any. */
  class Ball {
    var position: Vec2
    var velocity: Vec2
    var speed: real
    var collider: Rect
    var impact: Option<Impacts.Impact>

    /** The impact object the ball owns, if any. */
    ghost function ImpactFrame(): set<object>
      reads this
    {
      if impact.Some? then {impact.value} else {}
    }

    ghost function Model(): BallVal
      reads this, ImpactFrame()
    {
      BallVal(position, velocity, speed, collider,
              if impact.Some? then Some(impact.value.Model()) else None)
    }

    constructor (pos: Vec2, d: Draw)
      ensures Model() == Created(pos, d)
    {
      var v := RandomStartVec(d);
      position := pos;
      velocity := v;
      speed := START_SPEED;
      collider := Rect(pos.x, pos.y, BALL_SIZE, BALL_SIZE);
      impact := None;
    }

    method Reset(d: Draw)
      modifies this
      ensures impact == old(impact)
      ensures Model() == ResetTo(old(Model()), d)
    {
      position := CENTRE;
      speed := START_SPEED;
      velocity := RandomStartVec(d);
    }

    method Update(dt: real, ticks: nat)
      modifies this
      ensures impact == old(impact)
      ensures Model() == Updated(old(Model()), dt, ticks)
    {
      position := position.(x := position.x + (velocity.x * speed) * dt);
      position := position.(y := position.y + (velocity.y * speed) * dt);
      collider := collider.(x := position.x, y := position.y);
      if (velocity.y < 0.0 && collider.Top() < 0.0) ||
         (velocity.y > 0.0 && collider.Bottom() > SCREEN_HEIGHT) {
        velocity := velocity.(y := velocity.y * -1.0);
      }
      if ticks % BALL_SPEED_UPDATE_RATE == 0 {
        speed := speed + SPEED_STEP;
      }
      if speed >= MAX_SPEED {
        speed := MAX_SPEED;
      }
    }

    method CollisionWithBat(bat: Bats.Bat, isBat1: bool, frames: seq<Sprite>, d: Draw)
      requires |frames| > 0
      modifies this, bat`score, ImpactFrame()
      ensures fresh(ImpactFrame() - old(ImpactFrame()))
      ensures var r := Collided(old(Model()), old(bat.Model()), isBat1, frames, d);
              Model() == r.0 && bat.Model() == r.1
    {
      if collider.Overlaps(bat.collider) {
        var hit := new Impacts.Impact(Vec2(position.x - IMPACT_OFFSET, position.y), frames);
        impact := Some(hit);
        if isBat1 {
          velocity := velocity.(x := Abs(velocity.x));
        } else {
          velocity := velocity.(x := -Abs(velocity.x));
        }
      }
      if impact.Some? {
        impact.value.Update();
      }
      if position.x < 0.0 && !isBat1 {
        bat.score := bat.score + 1;
        Reset(d);
      } else if position.x > SCREEN_WIDTH && isBat1 {
        Reset(d);
        bat.score := bat.score + 1;
      }
    }
  }
}
