/** The per-ball physics of one frame of the brick-breaker: the game's
    `clamp`, paddle steering, wall reflection, the paddle contact, brick
    geometry and the circle-against-rectangle test, all as pure functions
    on values. */
module Physics {
  import opened Common
  import opened Levels

  /** A ball in play; `stuck` is the source's `stuckToPaddle`. */
  datatype Ball = Ball(x: real, y: real, vx: real, vy: real, radius: real, speed: real,
                       sticky: bool, stuck: bool, color: Option<string>)

  datatype Paddle = Paddle(x: real, y: real, width: real, height: real, speed: real)

  /** A brick in play: its level specification plus an id and its pixel-grid
      origin `px`, `py`; `hits` is what collisions decrement. */
  datatype Brick = Brick(id: string, x: int, y: int, px: int, py: int, hits: int,
                         color: string, powerup: Option<PowerUp>, image: Option<string>)

  /** `Math.max(a, Math.min(b, v))`. */
  function Clamp(v: real, a: real, b: real): (r: real)
    ensures a <= r
    ensures a <= b ==> r <= b
    ensures a <= v <= b ==> r == v
    ensures v <= a ==> r == a
    ensures a <= b <= v ==> r == b
    ensures b < a ==> r == a
  {
    Max(a, Min(b, v))
  }

  // ---------------------------------------------------------------------
  // Paddle steering

  /** `keyState[k]`: a key is held when it was last pressed and not released;
      a key never seen is `undefined`, hence not held. */
  predicate Held(keys: map<string, bool>, k: string)
  {
    k in keys && keys[k]
  }

  predicate LeftHeld(keys: map<string, bool>)
  {
    Held(keys, "ArrowLeft") || Held(keys, "a")
  }

  predicate RightHeld(keys: map<string, bool>)
  {
    Held(keys, "ArrowRight") || Held(keys, "d")
  }

  /** The paddle step of a frame: follow the mouse when there is one,
      otherwise step left, otherwise step right, each clamped to the
      playfield `[0, width - paddle width]`. */
  function MovePaddle(p: Paddle, mouseX: Option<real>, keys: map<string, bool>,
                      dt: real, width: real): (q: Paddle)
    ensures q == p.(x := q.x)
    ensures mouseX.None? && !LeftHeld(keys) && !RightHeld(keys) ==> q == p
  {
    var hi := width - p.width;
    if mouseX.Some? then p.(x := Clamp(mouseX.value - p.width / 2.0, 0.0, hi))
    else if LeftHeld(keys) then p.(x := Clamp(p.x - p.speed * dt, 0.0, hi))
    else if RightHeld(keys) then p.(x := Clamp(p.x + p.speed * dt, 0.0, hi))
    else p
  }

  predicate Inside(p: Paddle, width: real)
  {
    0.0 <= p.x <= width - p.width
  }

  /** Whenever the paddle moves it lands inside the playfield, provided it fits. */
  lemma MovedPaddleInside(p: Paddle, mouseX: Option<real>, keys: map<string, bool>, dt: real, width: real)
    requires p.width <= width
    requires mouseX.Some? || LeftHeld(keys) || RightHeld(keys)
    ensures Inside(MovePaddle(p, mouseX, keys, dt, width), width)
  {
  }

  /** A paddle that starts inside the playfield stays inside. */
  lemma PaddleStaysInside(p: Paddle, mouseX: Option<real>, keys: map<string, bool>, dt: real, width: real)
    requires Inside(p, width)
    ensures Inside(MovePaddle(p, mouseX, keys, dt, width), width)
  {
  }

  /** With a mouse present the keys are ignored, and the paddle centres on
      the mouse whenever that position fits. */
  lemma MouseFirst(p: Paddle, m: real, keys1: map<string, bool>, keys2: map<string, bool>, dt: real, width: real)
    ensures MovePaddle(p, Some(m), keys1, dt, width) == MovePaddle(p, Some(m), keys2, dt, width)
    ensures 0.0 <= m - p.width / 2.0 <= width - p.width ==>
              MovePaddle(p, Some(m), keys1, dt, width).x + p.width / 2.0 == m
  {
  }

  /** Left wins over right: with left held, what else is held does not matter,
      and a paddle inside the playfield does not move right. Holding only
      right never moves it left. */
  lemma LeftFirst(p: Paddle, keys1: map<string, bool>, keys2: map<string, bool>, dt: real, width: real)
    requires LeftHeld(keys1) && LeftHeld(keys2)
    ensures MovePaddle(p, None, keys1, dt, width) == MovePaddle(p, None, keys2, dt, width)
    ensures Inside(p, width) && p.speed * dt >= 0.0 ==> MovePaddle(p, None, keys1, dt, width).x <= p.x
  {
  }

  lemma RightMovesRight(p: Paddle, keys: map<string, bool>, dt: real, width: real)
    requires !LeftHeld(keys) && RightHeld(keys)
    requires Inside(p, width) && p.speed * dt >= 0.0
    ensures MovePaddle(p, None, keys, dt, width).x >= p.x
  {
  }

  // ---------------------------------------------------------------------
  // Ball motion

  function Integrate(b: Ball, dt: real): (c: Ball)
    ensures c == b.(x := c.x, y := c.y)
  {
    b.(x := b.x + b.vx * dt, y := b.y + b.vy * dt)
  }

  /** Reflection off the left or right wall (at most one of them), then off
      the top wall; the bottom is open. */
  function Walls(b: Ball, width: real): (c: Ball)
    ensures c == b.(x := c.x, vx := c.vx, y := c.y, vy := c.vy)
    ensures b.x - b.radius <= 0.0 ==> c.x == b.radius && c.vx >= 0.0 && Abs(c.vx) == Abs(b.vx)
    ensures b.x - b.radius > 0.0 && b.x + b.radius >= width ==>
              c.x == width - b.radius && c.vx <= 0.0 && Abs(c.vx) == Abs(b.vx)
    ensures b.x - b.radius > 0.0 && b.x + b.radius < width ==> c.x == b.x && c.vx == b.vx
    ensures b.y - b.radius <= 0.0 ==> c.y == b.radius && c.vy >= 0.0 && Abs(c.vy) == Abs(b.vy)
    ensures b.y - b.radius > 0.0 ==> c.y == b.y && c.vy == b.vy
  {
    var h := if b.x - b.radius <= 0.0 then b.(x := b.radius, vx := Abs(b.vx))
             else if b.x + b.radius >= width then b.(x := width - b.radius, vx := -Abs(b.vx))
             else b;
    if h.y - h.radius <= 0.0 then h.(y := h.radius, vy := Abs(h.vy)) else h
  }

  /** After the wall step a ball is between the side walls and below the top,
      whenever the playfield is at least one ball wide. */
  lemma WallsConfine(b: Ball, width: real)
    requires 2.0 * b.radius <= width
    ensures var c := Walls(b, width); b.radius <= c.x <= width - b.radius && b.radius <= c.y
  {
  }

  /** Reflecting twice is reflecting once, when the playfield is wider than the ball. */
  lemma WallsIdempotent(b: Ball, width: real)
    requires 2.0 * b.radius < width
    ensures Walls(Walls(b, width), width) == Walls(b, width)
  {
  }

  /** The trigger of the paddle rebound: the ball overlaps the paddle's
      band vertically, its centre is over the paddle, and it moves down. */
  predicate OnPaddle(b: Ball, p: Paddle)
  {
    b.y + b.radius >= p.y && b.y - b.radius < p.y + p.height &&
    b.x >= p.x && b.x <= p.x + p.width && b.vy > 0.0
  }

  /** The paddle rebound. `turn` stands for the angle computation, giving
      the new `(speed * sin a, speed * cos a)`; only the sign of the new
      vertical velocity is kept. A sticky ball sticks to the paddle. */
  function Rebound(b: Ball, p: Paddle, turn: (Ball, Paddle) -> (real, real)): (c: Ball)
    ensures !OnPaddle(b, p) ==> c == b
    ensures OnPaddle(b, p) ==>
              c == b.(vx := turn(b, p).0, vy := c.vy, stuck := b.stuck || b.sticky) &&
              c.vy <= 0.0 && Abs(c.vy) == Abs(turn(b, p).1)
  {
    if OnPaddle(b, p) then
      var (sx, cy) := turn(b, p);
      var c := b.(vx := sx, vy := -Abs(cy));
      if (c.sticky || c.stuck) && !c.stuck then c.(stuck := true) else c
    else b
  }

  /** A rebound sends the ball upward or level, so it cannot trigger again
      until it is moving down once more. */
  lemma ReboundOnce(b: Ball, p: Paddle, turn: (Ball, Paddle) -> (real, real))
    ensures !OnPaddle(Rebound(b, p, turn), p) || !OnPaddle(b, p)
  {
  }

  /** A stuck ball rides centred on the paddle, just above it. */
  function Pin(b: Ball, p: Paddle): (c: Ball)
    ensures c == b.(x := c.x, y := c.y)
    ensures c.x - p.x == p.width / 2.0 && p.y - c.y == b.radius + 2.0
  {
    b.(x := p.x + p.width / 2.0, y := p.y - b.radius - 2.0)
  }

  // ---------------------------------------------------------------------
  // Bricks

  /** `Math.max(12, 14)` columns across the playfield. */
  const Columns: real := 14.0
  const BrickH: real := 22.0
  /** The vertical pitch of brick rows: the height plus a 6-pixel gap. */
  const RowPitch: real := BrickH + 6.0

  /** Brick width: the playfield split in 14 columns, at least 30 wide. */
  function BrickW(width: real): (w: real)
    ensures 30.0 <= w && width / Columns <= w
  {
    Max(30.0, width / Columns)
  }

  function BrickLeft(k: Brick, width: real): real
  {
    k.x as real * BrickW(width) + 20.0
  }

  function BrickTop(k: Brick): real
  {
    40.0 + k.y as real * RowPitch
  }

  /** The offset `(dx, dy)` from the point of the brick's drawn rectangle
      (two pixels narrower and shorter than its cell) nearest to the ball's
      centre, to that centre. */
  function Offset(b: Ball, k: Brick, width: real): (o: (real, real))
    ensures o.0 < 0.0 <==> b.x < BrickLeft(k, width)
    ensures o.0 > 0.0 <==> b.x > BrickLeft(k, width) + BrickW(width) - 2.0
    ensures o.1 < 0.0 <==> b.y < BrickTop(k)
    ensures o.1 > 0.0 <==> b.y > BrickTop(k) + BrickH - 2.0
  {
    var left := BrickLeft(k, width);
    var top := BrickTop(k);
    (b.x - Clamp(b.x, left, left + BrickW(width) - 2.0), b.y - Clamp(b.y, top, top + BrickH - 2.0))
  }

  /** The circle-against-rectangle test: the nearest point is within the radius. */
  predicate Touches(b: Ball, k: Brick, width: real)
  {
    var (dx, dy) := Offset(b, k, width);
    dx * dx + dy * dy <= b.radius * b.radius
  }

  /** A ball whose centre lies on a brick's rectangle touches it. */
  lemma CentreOnBrickTouches(b: Ball, k: Brick, width: real)
    requires BrickLeft(k, width) <= b.x <= BrickLeft(k, width) + BrickW(width) - 2.0
    requires BrickTop(k) <= b.y <= BrickTop(k) + BrickH - 2.0
    ensures Touches(b, k, width)
  {
  }

  /** A touching ball's centre is within one radius of the rectangle on each axis. */
  lemma TouchIsNear(b: Ball, k: Brick, width: real)
    requires 0.0 <= b.radius
    requires Touches(b, k, width)
    ensures Abs(Offset(b, k, width).0) <= b.radius && Abs(Offset(b, k, width).1) <= b.radius
  {
    var (dx, dy) := Offset(b, k, width);
    SquareBelow(dx, dy, b.radius);
    SquareBelow(dy, dx, b.radius);
  }

  lemma SquareBelow(u: real, v: real, r: real)
    requires 0.0 <= r && u * u + v * v <= r * r
    ensures Abs(u) <= r
  {
    var a := Abs(u);
    SquareGrows(a, r);
    assert u * u == a * a;
  }

  /** Squaring is strictly increasing on the non-negative reals. */
  lemma SquareGrows(a: real, r: real)
    requires 0.0 <= r
    ensures r < a ==> r * r < a * a
  {
    var m, n := a - r, a + r;
    assert a * a - r * r == m * n;
  }

  /** The brick response: reverse the horizontal velocity when the ball is
      further off the rectangle sideways than vertically, else the vertical one. */
  function Deflect(b: Ball, dx: real, dy: real): (c: Ball)
    ensures Abs(dx) > Abs(dy) ==> c == b.(vx := -b.vx)
    ensures Abs(dx) <= Abs(dy) ==> c == b.(vy := -b.vy)
  {
    if Abs(dx) > Abs(dy) then b.(vx := -b.vx) else b.(vy := -b.vy)
  }

  /** Deflecting twice by the same offset restores the ball. */
  lemma DeflectTwice(b: Ball, dx: real, dy: real)
    ensures Deflect(Deflect(b, dx, dy), dx, dy) == b
  {
  }

  /** A brick takes part in collisions only while it has hits left. */
  predicate Live(k: Brick)
  {
    k.hits > 0
  }

  /** A brick the ball collides with. */
  predicate Struck(k: Brick, b: Ball, width: real)
  {
    Live(k) && Touches(b, k, width)
  }

  /** One hit: `hits := max(0, hits - 1)`. */
  function Hit(k: Brick): (h: Brick)
    ensures h == k.(hits := h.hits)
    ensures 0 <= h.hits
    ensures Live(k) ==> h.hits == k.hits - 1
  {
    k.(hits := if k.hits - 1 < 0 then 0 else k.hits - 1)
  }

  /** The score for a hit: 100 when it clears the brick, else 25. */
  function HitScore(h: Brick): (s: int)
    ensures s == 100 || s == 25
    ensures s == 100 <==> h.hits == 0
  {
    if h.hits == 0 then 100 else 25
  }
}
