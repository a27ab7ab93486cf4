/** The running game: paddle, balls, the level's bricks (whose hits are
    worn down in place), score and lives, and the handlers that change them.
    Each method is proved to follow the matching rule of `Frame`. */
module Game {
  import opened Common
  import opened Levels
  import opened Physics
  import opened Frame

  class GameState {
    var paddle: Paddle
    var balls: seq<Ball>
    /** The level's bricks for this run; collisions and the laser lower their hits. */
    const bricks: array<Brick>
    var score: int
    var lives: int
    const level: Level
    var paused: bool

    /** The state as the rules of a frame see it. */
    function Snapshot(): World
      reads this, bricks
    {
      World(paddle, balls, bricks[..], score, lives)
    }

    /** Level initialisation: one brick per specification, a centred
        paddle 140 wide, one ball stuck to it, score 0 and three lives. */
    constructor (lv: Level, width: real, height: real)
      ensures level == lv && fresh(bricks)
      ensures bricks.Length == |lv.bricks|
      ensures forall i :: 0 <= i < bricks.Length ==> bricks[i] == BrickOf(lv.id, i, lv.bricks[i])
      ensures paddle == StartPaddle(width, height) && balls == [StartBall(width, paddle)]
      ensures score == 0 && lives == 3 && !paused
      ensures Snapshot() == Fresh(lv, width, height)
    {
      level := lv;
      bricks := new Brick[|lv.bricks|](i requires 0 <= i < |lv.bricks| => BrickOf(lv.id, i, lv.bricks[i]));
      var p := StartPaddle(width, height);
      paddle := p;
      balls := [StartBall(width, p)];
      score := 0;
      lives := 3;
      paused := false;
    }

    /** A key press: space launches the stuck balls, "p" toggles the pause. */
    method KeyDown(key: string, rand: nat -> Unit)
      modifies this
      ensures balls == if key == " " || key == "Spacebar" then LaunchAll(old(balls), rand) else old(balls)
      ensures paused == if key == "p" then !old(paused) else old(paused)
      ensures paddle == old(paddle) && score == old(score) && lives == old(lives)
      ensures bricks[..] == old(bricks[..])
    {
      if key == " " || key == "Spacebar" {
        Launch(rand);
      }
      if key == "p" {
        paused := !paused;
      }
    }

    /** Every stuck ball is set free and sent up at its own speed. */
    method Launch(rand: nat -> Unit)
      modifies this
      ensures balls == LaunchAll(old(balls), rand)
      ensures paddle == old(paddle) && score == old(score) && lives == old(lives) && paused == old(paused)
    {
      var i := 0;
      while i < |balls|
        invariant 0 <= i <= |balls| == |old(balls)|
        invariant forall j :: 0 <= j < i ==> balls[j] == Launched(old(balls)[j], rand(j))
        invariant forall j :: i <= j < |balls| ==> balls[j] == old(balls)[j]
        invariant paddle == old(paddle) && score == old(score) && lives == old(lives) && paused == old(paused)
      {
        var b := balls[i];
        if b.stuck {
          balls := balls[i := b.(stuck := false, vx := Aim(rand(i)), vy := -Abs(b.speed))];
        }
        i := i + 1;
      }
    }

    /** Sets or clears `sticky` on every ball. */
    method SetSticky(on: bool)
      modifies this
      ensures balls == Stick(old(balls), on)
      ensures paddle == old(paddle) && score == old(score) && lives == old(lives) && paused == old(paused)
    {
      var i := 0;
      while i < |balls|
        invariant 0 <= i <= |balls| == |old(balls)|
        invariant forall j :: 0 <= j < i ==> balls[j] == old(balls)[j].(sticky := on)
        invariant forall j :: i <= j < |balls| ==> balls[j] == old(balls)[j]
        invariant paddle == old(paddle) && score == old(score) && lives == old(lives) && paused == old(paused)
      {
        balls := balls[i := balls[i].(sticky := on)];
        i := i + 1;
      }
    }

    /** `spawnPowerup`. */
    method SpawnPowerup(kind: PowerUp, r: PowerDraws)
      requires kind == Multi ==> |balls| > 0
      modifies this, bricks
      ensures Snapshot() == Spawn(old(Snapshot()), kind, r)
      ensures paused == old(paused)
    {
      match kind
      case Multi =>
        balls := balls + [MultiBall(balls[0], r)];
      case Big =>
        paddle := paddle.(width := Clamp(paddle.width * 1.5, 100.0, 300.0));
      case Sticky =>
        SetSticky(true);
      case Laser =>
        var live := LiveFrom(bricks[..], 0);
        if |live| > 0 {
          var j := live[FloorIndex(r.pick, |live|)];
          bricks[j] := bricks[j].(hits := 0);
        }
    }

    /** The big paddle's timer running out. */
    method RevertBig()
      modifies this
      ensures Snapshot() == BigReverted(old(Snapshot()))
      ensures paused == old(paused)
    {
      paddle := paddle.(width := PaddleWidth);
    }

    /** The sticky timer running out. */
    method RevertSticky()
      modifies this
      ensures Snapshot() == StickyReverted(old(Snapshot()))
      ensures paused == old(paused)
    {
      SetSticky(false);
    }

    /** The brick loop of ball `bi`: walk the bricks in order, skip the
        dead ones, and strike the first one the ball touches, then stop. */
    method HitBricks(bi: nat, env: Env)
      requires bi < |balls|
      modifies this, bricks
      ensures Snapshot() == Collide(old(Snapshot()), bi, env)
      ensures paused == old(paused)
    {
      var ball := balls[bi];
      var i := 0;
      while i < bricks.Length
        invariant 0 <= i <= bricks.Length
        invariant Snapshot() == old(Snapshot()) && paused == old(paused)
        invariant FirstHitFrom(bricks[..], ball, env.width, i) == FirstHitFrom(bricks[..], ball, env.width, 0)
      {
        var k := bricks[i];
        FirstHitStep(bricks[..], ball, env.width, i);
        if k.hits <= 0 {
          i := i + 1;
          continue;
        }
        if Touches(ball, k, env.width) {
          Strike(bi, i, env);
          return;
        }
        i := i + 1;
      }
    }

    /** Ball `bi` strikes brick `i`: it bounces, the brick loses a hit, the
        score grows by 100 if that cleared the brick (releasing its
        power-up) and by 25 otherwise. */
    method Strike(bi: nat, i: nat, env: Env)
      requires bi < |balls| && i < bricks.Length
      requires FirstHitFrom(bricks[..], balls[bi], env.width, 0) == Some(i)
      modifies this, bricks
      ensures Snapshot() == Collide(old(Snapshot()), bi, env)
      ensures paused == old(paused)
    {
      var ball := balls[bi];
      var k := bricks[i];
      var (dx, dy) := Offset(ball, k, env.width);
      balls := balls[bi := Deflect(ball, dx, dy)];
      var h := Hit(k);
      bricks[i] := h;
      if h.hits == 0 {
        score := score + 100;
        if h.powerup.Some? {
          SpawnPowerup(h.powerup.value, env.draws(bi));
        }
      } else {
        score := score + 25;
      }
    }

    /** One pass of the ball loop for ball `bi`. */
    method StepBall(bi: nat, env: Env)
      requires bi < |balls|
      modifies this, bricks
      ensures Snapshot() == BallStep(old(Snapshot()), bi, env)
      ensures paused == old(paused)
    {
      var ball := balls[bi];
      if ball.stuck {
        balls := balls[bi := Pin(ball, paddle)];
        return;
      }
      ball := Integrate(ball, env.dt);
      ball := Walls(ball, env.width);
      ball := Rebound(ball, paddle, env.turn);
      balls := balls[bi := ball];
      HitBricks(bi, env);
      if Fallen(balls[bi], env.height) {
        balls := balls[..bi] + balls[bi + 1..];
      }
    }

    /** `update`: move the paddle, walk the balls from the last to the
        first, lose a life when none is left, and name the next level once
        no brick is live. */
    method Update(mouseX: Option<real>, keys: map<string, bool>, env: Env, levels: seq<Level>)
      returns (next: Option<Level>)
      modifies this, bricks
      ensures Snapshot() == Step(old(Snapshot()), mouseX, keys, env)
      ensures next == Advance(levels, bricks[..], level)
      ensures paused == old(paused)
    {
      paddle := MovePaddle(paddle, mouseX, keys, env.dt, env.width);
      StepBalls(env);
      LoseLife();
      next := None;
      if Cleared(bricks[..]) {
        next := NextLevel(levels, level.id);
      }
    }

    /** The backward walk over the balls, from the last to the first. */
    method StepBalls(env: Env)
      modifies this, bricks
      ensures Snapshot() == BallsFrom(old(Snapshot()), |old(balls)|, env)
      ensures paused == old(paused)
    {
      ghost var start := Snapshot();
      var k: nat := |balls|;
      while k > 0
        invariant k <= |balls|
        invariant BallsFrom(Snapshot(), k, env) == BallsFrom(start, |start.balls|, env)
        invariant paused == old(paused)
        decreases k
      {
        StepBall(k - 1, env);
        k := k - 1;
      }
    }

    /** With no ball left, lose a life and serve a new ball if any life remains. */
    method LoseLife()
      modifies this
      ensures Snapshot() == Frame.LoseLife(old(Snapshot()))
      ensures paused == old(paused)
    {
      if |balls| == 0 {
        var newLives := lives - 1;
        if newLives > 0 {
          balls := balls + [Respawn(paddle)];
        }
        lives := newLives;
      }
    }

    /** One animation frame: the update runs only while not paused. */
    method Tick(mouseX: Option<real>, keys: map<string, bool>, env: Env, levels: seq<Level>)
      returns (next: Option<Level>)
      modifies this, bricks
      ensures old(paused) ==> Snapshot() == old(Snapshot()) && next.None?
      ensures !old(paused) ==> Snapshot() == Step(old(Snapshot()), mouseX, keys, env) &&
                               next == Advance(levels, bricks[..], level)
      ensures paused == old(paused)
    {
      next := None;
      if !paused {
        next := Update(mouseX, keys, env, levels);
      }
    }
  }
}
