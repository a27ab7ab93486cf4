/** The rules of the game as functions on a snapshot of its state: level
    set-up, launch, the four power-ups, the brick loop of one ball, the
    step of one ball, the backward walk over all balls, life loss and the
    win check. The methods of `Game.GameState` are proved to follow them. */
module Frame {
  import opened Common
  import opened Levels
  import opened Physics

  /** The game state one frame works on. */
  datatype World = World(paddle: Paddle, balls: seq<Ball>, bricks: seq<Brick>, score: int, lives: int)

  /** The random values a power-up may consume: the side a new ball appears
      on, its horizontal aim, and the live brick a laser picks. */
  datatype PowerDraws = PowerDraws(side: Unit, aim: Unit, pick: Unit)

  /** What a frame depends on besides the state: the playfield size, the
      time step, the paddle-rebound angle computation and, per ball index,
      the draws of the power-up that ball may release. */
  datatype Env = Env(width: real, height: real, dt: real,
                     turn: (Ball, Paddle) -> (real, real), draws: nat -> PowerDraws)

  // ---------------------------------------------------------------------
  // Level set-up

  /** The level the game opens: the route's id, else the `level` query
      parameter, else "1" (an empty string counts as missing); an id not in
      the catalog falls back to the first level. */
  function ChooseId(routeId: Option<string>, query: Option<string>): (id: string)
    ensures id != ""
    ensures routeId.Some? && routeId.value != "" ==> id == routeId.value
    ensures (routeId.None? || routeId.value == "") && query.Some? && query.value != "" ==> id == query.value
    ensures (routeId.None? || routeId.value == "") && (query.None? || query.value == "") ==> id == "1"
  {
    if routeId.Some? && routeId.value != "" then routeId.value
    else if query.Some? && query.value != "" then query.value
    else "1"
  }

  function OpenLevel(levels: seq<Level>, id: string): (r: Option<Level>)
    ensures FindLevel(levels, id).Some? ==> r == FindLevel(levels, id)
    ensures FindLevel(levels, id).None? && |levels| > 0 ==> r == Some(levels[0])
    ensures r.None? <==> |levels| == 0
  {
    var found := FindLevel(levels, id);
    if found.Some? then found else if |levels| > 0 then Some(levels[0]) else None
  }

  /** A brick in play made from the `i`-th specification of level `levelId`. */
  function BrickOf(levelId: string, i: nat, s: BrickSpec): (k: Brick)
    ensures k.x == k.px == s.x && k.y == k.py == s.y && k.hits == s.hits
    ensures k.id == levelId + "-" + NatToString(i)
  {
    Brick(levelId + "-" + NatToString(i), s.x, s.y, s.x, s.y, s.hits, s.color, s.powerup, s.image)
  }

  const PaddleWidth: real := 140.0

  function StartPaddle(width: real, height: real): (p: Paddle)
    ensures p.width == PaddleWidth && p.x + p.width / 2.0 == width / 2.0
  {
    Paddle(width / 2.0 - PaddleWidth / 2.0, height - 60.0, PaddleWidth, 12.0, 8.0)
  }

  function StartBall(width: real, p: Paddle): (b: Ball)
    ensures b.stuck && !b.sticky
  {
    Ball(width / 2.0, p.y - 12.0, 0.0, -4.0, 8.0, 5.0, false, true, Some("#FFFFFF"))
  }

  /** The bricks in play for a level: one per specification, in order. */
  function LevelBricks(lv: Level): (ks: seq<Brick>)
    ensures |ks| == |lv.bricks|
    ensures forall i :: 0 <= i < |ks| ==> ks[i] == BrickOf(lv.id, i, lv.bricks[i])
  {
    seq(|lv.bricks|, i requires 0 <= i < |lv.bricks| => BrickOf(lv.id, i, lv.bricks[i]))
  }

  /** The state a level starts in: all its bricks as specified, a centred
      paddle, one ball stuck to it, score 0 and three lives. */
  function Fresh(lv: Level, width: real, height: real): (w: World)
    ensures w.score == 0 && w.lives == 3
    ensures |w.balls| == 1 && w.balls[0].stuck && !w.balls[0].sticky
    ensures |w.bricks| == |lv.bricks| && forall i :: 0 <= i < |w.bricks| ==> w.bricks[i].hits == lv.bricks[i].hits
  {
    var p := StartPaddle(width, height);
    World(p, [StartBall(width, p)], LevelBricks(lv), 0, 3)
  }

  /** The "p" key as the component is written: the set-up effect lists
      `paused` among its dependencies, so toggling it runs the set-up again,
      which restarts the level and sets `paused` back to false. Returns the
      new state and the new pause flag. */
  function PauseKeyAsWritten(w: World, paused: bool, lv: Level, width: real, height: real): (r: (World, bool))
    ensures !r.1
    ensures r.0.score == 0 && r.0.lives == 3 && |r.0.bricks| == |lv.bricks|
  {
    (Fresh(lv, width, height), false)
  }

  // ---------------------------------------------------------------------
  // Launch

  /** `(Math.random() * 2 - 1) * 3`. */
  function Aim(r: Unit): (vx: real)
    ensures -3.0 <= vx < 3.0
  {
    (r * 2.0 - 1.0) * 3.0
  }

  /** One ball of the launch loop: a stuck ball is freed, a free one kept. */
  function Launched(b: Ball, r: Unit): (c: Ball)
    ensures !c.stuck
    ensures !b.stuck ==> c == b
  {
    if b.stuck then b.(stuck := false, vx := Aim(r), vy := -Abs(b.speed)) else b
  }

  /** Space launches the balls, the `i`-th stuck one aimed by draw `rand(i)`. */
  function LaunchAll(balls: seq<Ball>, rand: nat -> Unit): (bs: seq<Ball>)
    ensures |bs| == |balls|
    ensures forall i :: 0 <= i < |bs| ==> !bs[i].stuck
    ensures forall i :: 0 <= i < |bs| && !balls[i].stuck ==> bs[i] == balls[i]
  {
    var bs := seq(|balls|, i requires 0 <= i < |balls| => Launched(balls[i], rand(i)));
    assert forall i :: 0 <= i < |bs| ==> bs[i] == Launched(balls[i], rand(i));
    bs
  }

  /** Launch frees every stuck ball, sending it upward at its own speed;
      free balls are untouched. */
  lemma LaunchFacts(b: Ball, r: Unit)
    ensures !Launched(b, r).stuck
    ensures b.stuck ==> Launched(b, r) == b.(stuck := false, vx := Launched(b, r).vx, vy := -Abs(b.speed))
    ensures b.stuck ==> Launched(b, r).vy <= 0.0 && -3.0 <= Launched(b, r).vx < 3.0
    ensures !b.stuck ==> Launched(b, r) == b
  {
  }

  // ---------------------------------------------------------------------
  // Power-ups

  /** The extra ball of a multi-ball: 16 pixels to one side of `existing`,
      aimed at random, going up at `existing`'s speed. */
  function MultiBall(existing: Ball, r: PowerDraws): (c: Ball)
    ensures !c.stuck && !c.sticky && c.vy <= 0.0 && c.speed == existing.speed
    ensures c.y == existing.y && Abs(c.x - existing.x) == 16.0
  {
    Ball(existing.x + 16.0 * (if r.side > 0.5 then 1.0 else -1.0), existing.y,
         Aim(r.aim), -Abs(existing.speed), 8.0, existing.speed, false, false, None)
  }

  /** Every ball with its `sticky` flag set to `on`. */
  function Stick(balls: seq<Ball>, on: bool): (bs: seq<Ball>)
  {
    seq(|balls|, i requires 0 <= i < |balls| => balls[i].(sticky := on))
  }

  /** The indices of the live bricks from `i` on, in array order: the
      source's `bricks.filter(b => b.hits > 0)`. */
  function LiveFrom(bricks: seq<Brick>, i: nat): (ix: seq<nat>)
    requires i <= |bricks|
    decreases |bricks| - i
    ensures forall n :: 0 <= n < |ix| ==> i <= ix[n] < |bricks| && Live(bricks[ix[n]])
    ensures forall j :: i <= j < |bricks| && Live(bricks[j]) ==> j in ix
  {
    if i == |bricks| then []
    else (if Live(bricks[i]) then [i] else []) + LiveFrom(bricks, i + 1)
  }

  /** The laser: one live brick, picked uniformly by `pick`, loses all its hits. */
  function Laser(bricks: seq<Brick>, pick: Unit): (ks: seq<Brick>)
    ensures |ks| == |bricks|
    ensures (forall j :: 0 <= j < |bricks| ==> !Live(bricks[j])) ==> ks == bricks
    ensures (exists j :: 0 <= j < |bricks| && Live(bricks[j])) ==>
              exists j :: 0 <= j < |bricks| && Live(bricks[j]) && ks == bricks[j := bricks[j].(hits := 0)]
  {
    var live := LiveFrom(bricks, 0);
    if |live| == 0 then bricks
    else
      var j := live[FloorIndex(pick, |live|)];
      bricks[j := bricks[j].(hits := 0)]
  }

  /** `spawnPowerup`: what each power-up does to the state. Multi-ball copies
      from the first ball, so it needs one. */
  function Spawn(w: World, kind: PowerUp, r: PowerDraws): (v: World)
    requires kind == Multi ==> |w.balls| > 0
    ensures |v.balls| >= |w.balls| && |v.bricks| == |w.bricks|
  {
    match kind
    case Multi => w.(balls := w.balls + [MultiBall(w.balls[0], r)])
    case Big => w.(paddle := w.paddle.(width := Clamp(w.paddle.width * 1.5, 100.0, 300.0)))
    case Sticky => w.(balls := Stick(w.balls, true))
    case Laser => w.(bricks := Laser(w.bricks, r.pick))
  }

  /** The timed reversal of a big paddle. */
  function BigReverted(w: World): World
  {
    w.(paddle := w.paddle.(width := PaddleWidth))
  }

  /** The timed reversal of sticky balls. */
  function StickyReverted(w: World): World
  {
    w.(balls := Stick(w.balls, false))
  }

  // ---------------------------------------------------------------------
  // One ball

  /** The brick loop's choice: the first live brick, in array order, that
      the ball touches, looking from index `i` on. */
  function FirstHitFrom(bricks: seq<Brick>, b: Ball, width: real, i: nat): (r: Option<nat>)
    requires i <= |bricks|
    decreases |bricks| - i
    ensures r.Some? ==> i <= r.value < |bricks| && Struck(bricks[r.value], b, width)
    ensures r.Some? ==> forall j :: i <= j < r.value ==> !Struck(bricks[j], b, width)
    ensures r.None? ==> forall j :: i <= j < |bricks| ==> !Struck(bricks[j], b, width)
  {
    if i == |bricks| then None
    else if Struck(bricks[i], b, width) then Some(i)
    else FirstHitFrom(bricks, b, width, i + 1)
  }

  /** One step of the brick loop's search. */
  lemma FirstHitStep(bricks: seq<Brick>, b: Ball, width: real, i: nat)
    requires i < |bricks|
    ensures FirstHitFrom(bricks, b, width, i) ==
              if Live(bricks[i]) && Touches(b, bricks[i], width) then Some(i) else FirstHitFrom(bricks, b, width, i + 1)
  {
  }

  /** The brick loop of ball `bi`: the first struck brick loses a hit, the
      ball is deflected, the score grows, and a brick that is cleared
      releases its power-up. */
  function Collide(w: World, bi: nat, env: Env): (v: World)
    requires bi < |w.balls|
    ensures |v.balls| >= |w.balls| && |v.bricks| == |w.bricks|
  {
    var b := w.balls[bi];
    match FirstHitFrom(w.bricks, b, env.width, 0)
    case None => w
    case Some(i) =>
      var (dx, dy) := Offset(b, w.bricks[i], env.width);
      var k := Hit(w.bricks[i]);
      var v := w.(balls := w.balls[bi := Deflect(b, dx, dy)], bricks := w.bricks[i := k],
                  score := w.score + HitScore(k));
      if k.hits == 0 && k.powerup.Some? then Spawn(v, k.powerup.value, env.draws(bi)) else v
  }

  /** A ball below the bottom edge leaves play. */
  predicate Fallen(b: Ball, height: real)
  {
    b.y - b.radius > height
  }

  /** Ball `bi` leaves play if it fell, the others keeping their order. */
  function Drop(w: World, bi: nat, height: real): (v: World)
    requires bi < |w.balls|
    ensures v == w.(balls := v.balls)
    ensures !Fallen(w.balls[bi], height) ==> v == w
    ensures Fallen(w.balls[bi], height) ==>
              |v.balls| == |w.balls| - 1 &&
              (forall j :: 0 <= j < bi ==> v.balls[j] == w.balls[j]) &&
              (forall j :: bi < j < |w.balls| ==> v.balls[j - 1] == w.balls[j])
  {
    if Fallen(w.balls[bi], height) then w.(balls := w.balls[..bi] + w.balls[bi + 1..]) else w
  }

  /** The free ball `b` after moving, the walls and the paddle. */
  function Fly(b: Ball, p: Paddle, env: Env): (c: Ball)
    ensures c.radius == b.radius && c.speed == b.speed && c.sticky == b.sticky && c.color == b.color
    ensures c.stuck == (b.stuck || (b.sticky && OnPaddle(Walls(Integrate(b, env.dt), env.width), p)))
  {
    Rebound(Walls(Integrate(b, env.dt), env.width), p, env.turn)
  }

  /** One pass of the ball loop, for ball `bi`: a stuck ball only follows the
      paddle; a free one flies, meets the bricks, and may fall out. */
  function BallStep(w: World, bi: nat, env: Env): (v: World)
    requires bi < |w.balls|
    ensures bi <= |v.balls|
    ensures |v.bricks| == |w.bricks|
  {
    var b := w.balls[bi];
    if b.stuck then w.(balls := w.balls[bi := Pin(b, w.paddle)])
    else
      var c := Collide(w.(balls := w.balls[bi := Fly(b, w.paddle, env)]), bi, env);
      Drop(c, bi, env.height)
  }

  /** The backward ball loop: balls `k - 1` down to `0`. Balls a multi-ball
      adds on the way sit past the index and wait for the next frame. */
  function BallsFrom(w: World, k: nat, env: Env): (v: World)
    requires k <= |w.balls|
    decreases k
    ensures |v.bricks| == |w.bricks|
  {
    if k == 0 then w else BallsFrom(BallStep(w, k - 1, env), k - 1, env)
  }

  // ---------------------------------------------------------------------
  // Lives and winning

  /** The ball served after a lost life. */
  function Respawn(p: Paddle): (b: Ball)
    ensures b.stuck && !b.sticky
  {
    Ball(p.x + p.width / 2.0, p.y - 12.0, 0.0, -4.0, 8.0, 5.0, false, true, Some("#fff"))
  }

  /** With no ball left a life is lost, and a new stuck ball is served
      unless that was the last life. */
  function LoseLife(w: World): (v: World)
    ensures v.paddle == w.paddle && v.bricks == w.bricks && v.score == w.score
    ensures |w.balls| > 0 ==> v == w
    ensures |w.balls| == 0 ==> v.lives == w.lives - 1 && (|v.balls| > 0 <==> v.lives > 0)
  {
    if |w.balls| > 0 then w
    else if w.lives - 1 <= 0 then w.(lives := w.lives - 1)
    else w.(balls := [Respawn(w.paddle)], lives := w.lives - 1)
  }

  /** The whole update of one frame: the paddle, every ball, then lives. */
  function Step(w: World, mouseX: Option<real>, keys: map<string, bool>, env: Env): (v: World)
    ensures |v.bricks| == |w.bricks|
  {
    var moved := w.(paddle := MovePaddle(w.paddle, mouseX, keys, env.dt, env.width));
    LoseLife(BallsFrom(moved, |moved.balls|, env))
  }

  predicate Cleared(bricks: seq<Brick>)
  {
    forall j :: 0 <= j < |bricks| ==> !Live(bricks[j])
  }

  /** The level to move to once no brick is live: the next in the catalog. */
  function Advance(levels: seq<Level>, bricks: seq<Brick>, current: Level): (r: Option<Level>)
    ensures !Cleared(bricks) ==> r.None?
    ensures r.Some? ==> r.value in levels
  {
    if Cleared(bricks) then NextLevel(levels, current.id) else None
  }
}
