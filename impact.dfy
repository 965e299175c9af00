/** The impact effect: a short sprite animation shown where the ball hit a bat
 *  (src/impact.rs). Its state is two integer counters: `frameRate` counts calls
 *  up to FRAME_SPEED, and each time it completes a cycle `currentFrame` moves on
 *  to the next sprite, sticking on the last one. */
module Impacts {
  import opened Screen

  /** Calls to `Animate` per sprite. */
  const FRAME_SPEED: nat := 6

  /** The value of an impact's fields (the hit sound is not modelled). */
  datatype ImpactVal = ImpactVal(
    position: Vec2,
    sprite: Sprite,
    sprites: seq<Sprite>,
    currentFrame: nat,
    frameRate: nat)

  /** The sprite on show is the one the frame counter selects, or the last
   *  sprite once the counter has run past the end of the list. */
  ghost predicate ShowsItsFrame(v: ImpactVal)
  {
    |v.sprites| > 0 &&
    v.sprite == v.sprites[if v.currentFrame < |v.sprites| then v.currentFrame else |v.sprites| - 1]
  }

  ghost predicate Inv(v: ImpactVal)
  {
    ShowsItsFrame(v) && v.frameRate <= FRAME_SPEED
  }

  /** `Impact::new`: the first sprite, both counters at their start values. */
  function Fresh(pos: Vec2, frames: seq<Sprite>): (r: ImpactVal)
    requires |frames| > 0
    ensures Inv(r) && r.sprites == frames && r.position == pos
    ensures r.currentFrame == 0 && r.frameRate == FRAME_SPEED && r.sprite == frames[0]
  {
    ImpactVal(pos, frames[0], frames, 0, 6)
  }

  /** `Impact::animate`: one call. */
  function Animated(v: ImpactVal): (r: ImpactVal)
    ensures r.position == v.position && r.sprites == v.sprites
    ensures v.currentFrame <= r.currentFrame <= v.currentFrame + 1
    ensures r.frameRate < FRAME_SPEED
    ensures Inv(v) ==> Inv(r)
    // the frame counter moves exactly when the frame-rate counter completes a cycle
    ensures r.currentFrame == v.currentFrame + 1 <==> v.frameRate == FRAME_SPEED - 1
    // early return past the last sprite: the sprite and the frame-rate counter stay
    ensures v.frameRate == FRAME_SPEED - 1 && v.currentFrame + 1 >= |v.sprites| ==>
              r.frameRate == v.frameRate && r.sprite == v.sprite
    // otherwise the frame-rate counter wraps round, and a new frame brings its sprite
    ensures v.frameRate == FRAME_SPEED - 1 && v.currentFrame + 1 < |v.sprites| ==>
              r.frameRate == 0 && r.sprite == v.sprites[v.currentFrame + 1]
    ensures v.frameRate != FRAME_SPEED - 1 ==>
              r.frameRate == (v.frameRate + 1) % FRAME_SPEED && r.sprite == v.sprite
  {
    if v.frameRate == FRAME_SPEED - 1 then
      var next := v.currentFrame + 1;
      if next >= |v.sprites| then
        // early return: the sprite and the frame-rate counter stay as they are
        v.(currentFrame := next)
      else
        v.(currentFrame := next, sprite := v.sprites[next],
           frameRate := (v.frameRate + 1) % FRAME_SPEED)
    else
      v.(frameRate := (v.frameRate + 1) % FRAME_SPEED)
  }

  /** `n` successive calls of `Animated`. */
  function AnimatedTimes(v: ImpactVal, n: nat): (r: ImpactVal)
    ensures r.position == v.position && r.sprites == v.sprites
    ensures v.currentFrame <= r.currentFrame <= v.currentFrame + n
    ensures Inv(v) ==> Inv(r)
  {
    if n == 0 then v else Animated(AnimatedTimes(v, n - 1))
  }

  /** Splitting `m + 1` into sprite index and frame-rate counter, given the split of `m`. */
  lemma DivModStep(m: nat)
    ensures m % FRAME_SPEED < FRAME_SPEED - 1 ==>
              (m + 1) / FRAME_SPEED == m / FRAME_SPEED && (m + 1) % FRAME_SPEED == m % FRAME_SPEED + 1
    ensures m % FRAME_SPEED == FRAME_SPEED - 1 ==>
              (m + 1) / FRAME_SPEED == m / FRAME_SPEED + 1 && (m + 1) % FRAME_SPEED == 0
  {
  }

  /** The whole life of a fresh impact with L sprites, call by call: during the
   *  first FRAME_SPEED * L calls the sprite index is the number of calls divided
   *  by FRAME_SPEED and the frame-rate counter is the remainder; from then on the
   *  last sprite stays, the frame-rate counter stays at FRAME_SPEED - 1 and the
   *  frame counter goes up by one on every call, without bound. */
  lemma {:induction false} FreshSchedule(pos: Vec2, frames: seq<Sprite>, n: nat)
    requires |frames| > 0
    ensures var r := AnimatedTimes(Fresh(pos, frames), n);
            var L := |frames|;
            (n == 0 ==> r.currentFrame == 0 && r.frameRate == 6 && r.sprite == frames[0]) &&
            (1 <= n < FRAME_SPEED * L ==>
               r.currentFrame == n / FRAME_SPEED && r.frameRate == n % FRAME_SPEED &&
               r.sprite == frames[n / FRAME_SPEED]) &&
            (n >= FRAME_SPEED * L ==>
               r.currentFrame == n - (FRAME_SPEED - 1) * L && r.frameRate == FRAME_SPEED - 1 &&
               r.sprite == frames[L - 1])
  {
    var L := |frames|;
    if n > 0 {
      var m := n - 1;
      FreshSchedule(pos, frames, m);
      var p := AnimatedTimes(Fresh(pos, frames), m);
      assert AnimatedTimes(Fresh(pos, frames), n) == Animated(p);
      if m == 0 {
        assert Animated(p).frameRate == 1;
      } else if m < FRAME_SPEED * L {
        DivModStep(m);
        if m % FRAME_SPEED == FRAME_SPEED - 1 && m + 1 == FRAME_SPEED * L {
          assert m / FRAME_SPEED == L - 1;
        }
      }
    }
  }

  /** With L sprites, the last one appears after exactly FRAME_SPEED * (L - 1)
   *  calls and not earlier; with the six impact sprites that is call 30. */
  lemma LastSpriteAfter(pos: Vec2, frames: seq<Sprite>, n: nat)
    requires |frames| > 0
    ensures var r := AnimatedTimes(Fresh(pos, frames), n);
            (n < FRAME_SPEED * (|frames| - 1) ==> r.currentFrame < |frames| - 1) &&
            (n == FRAME_SPEED * (|frames| - 1) ==>
               r.currentFrame == |frames| - 1 && r.sprite == frames[|frames| - 1])
  {
    FreshSchedule(pos, frames, n);
  }

  /** Once the frame counter has reached the last sprite, no number of further
   *  calls changes the sprite on show. */
  lemma StaysOnLastSprite(v: ImpactVal, n: nat)
    requires Inv(v) && v.currentFrame >= |v.sprites| - 1
    ensures AnimatedTimes(v, n).sprite == v.sprite
  {
  }

  /** Past the end of the sprite list, every call increments the frame counter:
   *  it has no upper bound. */
  lemma {:induction false} KeepsCounting(v: ImpactVal, n: nat)
    requires v.currentFrame >= |v.sprites| && v.frameRate == FRAME_SPEED - 1
    ensures var r := AnimatedTimes(v, n);
            r.currentFrame == v.currentFrame + n && r.frameRate == FRAME_SPEED - 1 &&
            r.sprite == v.sprite
  {
    if n > 0 {
      KeepsCounting(v, n - 1);
    }
  }

  /** An impact as the game holds it: fields updated in place by `Animate`. */
  class Impact {
    const position: Vec2
    var sprite: Sprite
    const sprites: seq<Sprite>
    var currentFrame: nat
    var frameRate: nat

    ghost function Model(): ImpactVal
      reads this
    {
      ImpactVal(position, sprite, sprites, currentFrame, frameRate)
    }

    /** `Impact::new`; the source indexes the first sprite, so the list must not be empty. */
    constructor (pos: Vec2, frames: seq<Sprite>)
      requires |frames| > 0
      ensures Model() == Fresh(pos, frames)
      ensures currentFrame == 0 && frameRate == 6 && sprite == frames[0]
    {
      position := pos;
      sprite := frames[0];
      sprites := frames;
      currentFrame := 0;
      frameRate := 6;
    }

    method Animate()
      modifies this
      ensures Model() == Animated(old(Model()))
    {
      if frameRate == FRAME_SPEED - 1 {
        currentFrame := currentFrame + 1;
        if currentFrame >= |sprites| {
          return;
        }
        sprite := sprites[currentFrame];
      }
      frameRate := (frameRate + 1) % FRAME_SPEED;
    }

    method Update()
      modifies this
      ensures Model() == Animated(old(Model()))
    {
      Animate();
    }
  }
}
