/** The match (src/game_state.rs): two bats, a ball and the phase of play. In
 *  the menu the game waits for Space; while running, every frame moves both
 *  bats, then the ball, checks the ball against bat 1 and then bat 2, and ends
 *  the match as soon as either bat has scored 10. */
module GameStates {
  import opened Screen
  import Bats
  import Balls

  /** The score that wins the match. */
  const WINNING_SCORE: nat := 10

  datatype Phase = Running | Over | Menu

  /** Who `get_winner_text` announces: "Player 1 Won!" or "Player 2 Won!". */
  datatype Player = Player1 | Player2

  datatype GameVal = GameVal(
    dt: real,
    impactAssets: seq<Sprite>,
    bat1: Bats.BatVal,
    bat2: Bats.BatVal,
    ball: Balls.BallVal,
    state: Phase)

  /** What the engine reports for one frame: its length in seconds, its number,
   *  which of the five keys are held, and one random draw for each of the two
   *  ball-against-bat checks. */
  datatype FrameInput = FrameInput(
    dt: real,
    ticks: nat,
    keyW: bool,
    keyS: bool,
    keyUp: bool,
    keyDown: bool,
    keySpace: bool,
    draw1: Balls.Draw,
    draw2: Balls.Draw)

  /** `GameState::new`: bat 1 on the left, bat 2 on the right, the ball in the
   *  centre, waiting in the menu. */
  function NewGame(bat1Image: Image, bat2Image: Image, frames: seq<Sprite>, d: Balls.Draw): (r: GameVal)
    ensures r.state == Menu && r.dt == 0.0 && r.impactAssets == frames
    ensures r.bat1 == Bats.Created(Vec2(0.0, 150.0), bat1Image)
    ensures r.bat2 == Bats.Created(Vec2(650.0, 150.0), bat2Image)
    ensures r.ball == Balls.Created(CENTRE, d)
    ensures r.bat1.score == 0 && r.bat2.score == 0 && r.ball.speed == Balls.START_SPEED
  {
    GameVal(0.0, frames,
            Bats.Created(Vec2(0.0, 150.0), bat1Image),
            Bats.Created(Vec2(650.0, 150.0), bat2Image),
            Balls.Created(CENTRE, d),
            Menu)
  }

  /** `check_winnner_condition`. */
  function CheckedWinner(g: GameVal): (r: GameVal)
    ensures r == g.(state := r.state)
    ensures r.state == Over <==>
              g.state == Over || g.bat1.score == WINNING_SCORE || g.bat2.score == WINNING_SCORE
    ensures r.state != Over ==> r.state == g.state
  {
    if g.bat1.score == WINNING_SCORE || g.bat2.score == WINNING_SCORE then g.(state := Over) else g
  }

  /** `get_winner_text`, as the player it names. */
  function Winner(g: GameVal): (r: Player)
    ensures r == Player1 <==> g.bat1.score == WINNING_SCORE
    ensures r == Player2 <==> g.bat1.score != WINNING_SCORE
  {
    if g.bat1.score == WINNING_SCORE then Player1 else Player2
  }

  /** One frame of play, in the order the source runs it. */
  function RunningTick(g: GameVal, inp: FrameInput): (r: GameVal)
    requires |g.impactAssets| > 0
    ensures r.impactAssets == g.impactAssets && r.dt == inp.dt
    ensures r.state == Over <==>
              r.bat1.score == WINNING_SCORE || r.bat2.score == WINNING_SCORE
    ensures r.state != Over ==> r.state == Running
  {
    var bat1 := Bats.Updated(g.bat1, inp.dt, inp.keyW, inp.keyS);
    var bat2 := Bats.Updated(g.bat2, inp.dt, inp.keyUp, inp.keyDown);
    var ball := Balls.Updated(g.ball, inp.dt, inp.ticks);
    var first := Balls.Collided(ball, bat1, true, g.impactAssets, inp.draw1);
    var second := Balls.Collided(first.0, bat2, false, g.impactAssets, inp.draw2);
    CheckedWinner(GameVal(inp.dt, g.impactAssets, first.1, second.1, second.0, Running))
  }

  /** `update`: dispatch on the phase. */
  function Updated(g: GameVal, inp: FrameInput): (r: GameVal)
    requires |g.impactAssets| > 0
    ensures r.impactAssets == g.impactAssets
    ensures PhaseStep(g.state, r.state)
    // outside Running nothing moves and nobody scores
    ensures g.state != Running ==> r.bat1 == g.bat1 && r.bat2 == g.bat2 && r.ball == g.ball
  {
    match g.state
    case Running => RunningTick(g, inp)
    case Menu => if inp.keySpace then g.(state := Running) else g
    case Over => g
  }

  /** The phase changes the match can make in one frame: Menu to Running, and
   *  Running to Over; never back. */
  predicate PhaseStep(p: Phase, q: Phase)
  {
    p == q || (p == Menu && q == Running) || (p == Running && q == Over)
  }

  /** How the two scores may change in one frame: not at all, or one of them by one. */
  predicate ScoreStep(g: GameVal, r: GameVal)
  {
    (r.bat1.score == g.bat1.score && r.bat2.score == g.bat2.score) ||
    (r.bat1.score == g.bat1.score + 1 && r.bat2.score == g.bat2.score) ||
    (r.bat1.score == g.bat1.score && r.bat2.score == g.bat2.score + 1)
  }

  /** What holds of every state the match reaches: in the menu nobody has
   *  scored; while running both scores are below 10; once over, exactly one
   *  bat has 10 and the other fewer. The ball keeps its own invariant. */
  ghost predicate Inv(g: GameVal)
  {
    |g.impactAssets| > 0 &&
    Balls.Inv(g.ball) &&
    (g.state == Menu ==> g.bat1.score == 0 && g.bat2.score == 0) &&
    (g.state == Running ==> g.bat1.score < WINNING_SCORE && g.bat2.score < WINNING_SCORE) &&
    (g.state == Over ==>
       (g.bat1.score == WINNING_SCORE && g.bat2.score < WINNING_SCORE) ||
       (g.bat2.score == WINNING_SCORE && g.bat1.score < WINNING_SCORE))
  }

  lemma NewGameInv(bat1Image: Image, bat2Image: Image, frames: seq<Sprite>, d: Balls.Draw)
    requires |frames| > 0
    ensures var g := NewGame(bat1Image, bat2Image, frames, d);
            Inv(g) && g.state == Menu && g.dt == 0.0 &&
            g.bat1.position == Vec2(0.0, 150.0) && g.bat2.position == Vec2(650.0, 150.0) &&
            g.ball.position == CENTRE
  {
  }

  /** A running frame scores at most one goal: a goal against bat 1 puts the
   *  ball back in the centre before bat 2 is checked, and the two goal
   *  conditions (past the right edge, past the left edge) exclude each other.
   *  The ball's speed multiplier does not drop on a frame without a goal. */
  lemma RunningTickScoresAtMostOnce(g: GameVal, inp: FrameInput)
    requires |g.impactAssets| > 0 && g.state == Running
    ensures ScoreStep(g, RunningTick(g, inp))
    ensures var r := RunningTick(g, inp);
            Balls.Inv(g.ball) && r.bat1.score == g.bat1.score && r.bat2.score == g.bat2.score ==>
              g.ball.speed <= r.ball.speed
  {
  }

  /** One frame keeps the invariant, moves the phase only forwards, and ends
   *  the match exactly on the frame where a score reaches 10. */
  lemma UpdatedKeepsInv(g: GameVal, inp: FrameInput)
    requires Inv(g)
    ensures var r := Updated(g, inp);
            Inv(r) && PhaseStep(g.state, r.state) && ScoreStep(g, r)
    ensures var r := Updated(g, inp);
            g.state == Running ==>
              (r.state == Over <==> r.bat1.score == WINNING_SCORE || r.bat2.score == WINNING_SCORE)
  {
  }

  /** In the menu a frame starts the match if Space is held and changes nothing else. */
  lemma MenuWaitsForSpace(g: GameVal, inp: FrameInput)
    requires |g.impactAssets| > 0 && g.state == Menu
    ensures Updated(g, inp) == if inp.keySpace then g.(state := Running) else g
  {
  }

  /** The state after a sequence of frames. */
  function Run(g: GameVal, inputs: seq<FrameInput>): (r: GameVal)
    requires |g.impactAssets| > 0
    ensures r.impactAssets == g.impactAssets
    decreases |inputs|
  {
    if |inputs| == 0 then g else Run(Updated(g, inputs[0]), inputs[1..])
  }

  /** Once over, the match stays as it is, scores included, whatever frames follow. */
  lemma {:induction false} OverIsFinal(g: GameVal, inputs: seq<FrameInput>)
    requires |g.impactAssets| > 0 && g.state == Over
    ensures Run(g, inputs) == g
    decreases |inputs|
  {
    if |inputs| > 0 {
      OverIsFinal(Updated(g, inputs[0]), inputs[1..]);
    }
  }

  /** Every sequence of frames keeps the invariant. */
  lemma {:induction false} RunKeepsInv(g: GameVal, inputs: seq<FrameInput>)
    requires Inv(g)
    ensures Inv(Run(g, inputs))
    decreases |inputs|
  {
    if |inputs| > 0 {
      UpdatedKeepsInv(g, inputs[0]);
      RunKeepsInv(Updated(g, inputs[0]), inputs[1..]);
    }
  }

  /** From a new game, whatever happens: no score ever passes 10, the two bats
   *  never both reach 10, and the match is over exactly when one of them has. */
  lemma {:induction false} NoTieEver(bat1Image: Image, bat2Image: Image, frames: seq<Sprite>,
                                     d: Balls.Draw, inputs: seq<FrameInput>)
    requires |frames| > 0
    ensures var r := Run(NewGame(bat1Image, bat2Image, frames, d), inputs);
            r.bat1.score <= WINNING_SCORE && r.bat2.score <= WINNING_SCORE &&
            !(r.bat1.score == WINNING_SCORE && r.bat2.score == WINNING_SCORE) &&
            (r.state == Over <==> r.bat1.score == WINNING_SCORE || r.bat2.score == WINNING_SCORE)
  {
    NewGameInv(bat1Image, bat2Image, frames, d);
    RunKeepsInv(NewGame(bat1Image, bat2Image, frames, d), inputs);
  }

  /** The announced winner is the bat that reached 10. */
  lemma WinnerReachedTen(g: GameVal)
    requires Inv(g) && g.state == Over
    ensures Winner(g) == Player1 <==> g.bat1.score == WINNING_SCORE
    ensures Winner(g) == Player2 <==> g.bat2.score == WINNING_SCORE
  {
  }

  /** The frame on which bat 1 reaches 10 ends the match with player 1 as the
   *  winner, bat 2 short of 10, and nothing changes on any later frame. */
  lemma Player1WinsAndMatchFreezes(g: GameVal, inp: FrameInput, later: seq<FrameInput>)
    requires Inv(g) && g.state == Running
    requires Updated(g, inp).bat1.score == WINNING_SCORE
    ensures var r := Updated(g, inp);
            r.state == Over && Winner(r) == Player1 && r.bat2.score < WINNING_SCORE &&
            Run(r, later) == r
  {
  }

  /** The match as the engine holds it. */
  class GameState {
    var dt: real
    const impactAssets: seq<Sprite>
    const bat1: Bats.Bat
    const bat2: Bats.Bat
    const ball: Balls.Ball
    var state: Phase

    ghost function Model(): GameVal
      reads this, bat1, bat2, ball, ball.ImpactFrame()
    {
      GameVal(dt, impactAssets, bat1.Model(), bat2.Model(), ball.Model(), state)
    }

    ghost predicate Valid()
      reads this, bat1, bat2, ball, ball.ImpactFrame()
    {
      bat1 != bat2 && Inv(Model())
    }

    /** `GameState::new`, with the loaded bat images and impact sprites and the
     *  generator's draw for the ball's first velocity. */
    constructor (bat1Image: Image, bat2Image: Image, frames: seq<Sprite>, d: Balls.Draw)
      requires |frames| > 0
      ensures Valid() && Model() == NewGame(bat1Image, bat2Image, frames, d)
      ensures state == Menu && dt == 0.0
    {
      dt := 0.0;
      impactAssets := frames;
      bat1 := new Bats.Bat(Vec2(0.0, 150.0), bat1Image);
      bat2 := new Bats.Bat(Vec2(650.0, 150.0), bat2Image);
      ball := new Balls.Ball(CENTRE, d);
      state := Menu;
      new;
      NewGameInv(bat1Image, bat2Image, frames, d);
    }

    method CheckWinnerCondition()
      modifies this
      ensures Model() == CheckedWinner(old(Model()))
    {
      if bat1.score == WINNING_SCORE || bat2.score == WINNING_SCORE {
        state := Over;
      }
    }

    /** The first part of a running frame: the frame length is stored and the
     *  two bats and the ball move. */
    method MoveAll(inp: FrameInput)
      requires bat1 != bat2
      modifies this, bat1, bat2, ball
      ensures ball.impact == old(ball.impact)
      ensures Model() == old(Model()).(dt := inp.dt,
                                       bat1 := Bats.Updated(old(bat1.Model()), inp.dt, inp.keyW, inp.keyS),
                                       bat2 := Bats.Updated(old(bat2.Model()), inp.dt, inp.keyUp, inp.keyDown),
                                       ball := Balls.Updated(old(ball.Model()), inp.dt, inp.ticks))
    {
      dt := inp.dt;
      bat1.Update(dt, inp.keyW, inp.keyS);
      bat2.Update(dt, inp.keyUp, inp.keyDown);
      ball.Update(dt, inp.ticks);
    }

    /** The second part: the ball is checked against bat 1, then against bat 2. */
    method CheckBothBats(inp: FrameInput)
      requires bat1 != bat2 && |impactAssets| > 0
      modifies ball, bat1`score, bat2`score, ball.ImpactFrame()
      ensures var first := Balls.Collided(old(ball.Model()), old(bat1.Model()), true, impactAssets, inp.draw1);
              var second := Balls.Collided(first.0, old(bat2.Model()), false, impactAssets, inp.draw2);
              Model() == old(Model()).(ball := second.0, bat1 := first.1, bat2 := second.1)
    {
      ball.CollisionWithBat(bat1, true, impactAssets, inp.draw1);
      ball.CollisionWithBat(bat2, false, impactAssets, inp.draw2);
    }

    /** The running branch of `update`: one frame of play. */
    method Tick(inp: FrameInput)
      requires bat1 != bat2 && |impactAssets| > 0
      modifies this, bat1, bat2, ball, ball.ImpactFrame()
      ensures Model() == RunningTick(old(Model()).(state := Running), inp)
    {
      MoveAll(inp);
      CheckBothBats(inp);
      state := Running;
      CheckWinnerCondition();
    }

    method Update(inp: FrameInput)
      requires Valid()
      modifies this, bat1, bat2, ball, ball.ImpactFrame()
      ensures Valid()
      ensures Model() == Updated(old(Model()), inp)
    {
      ghost var before := Model();
      match state {
        case Running =>
          Tick(inp);
        case Menu =>
          if inp.keySpace {
            state := Running;
          }
        case Over =>
      }
      UpdatedKeepsInv(before, inp);
    }
  }
}
