/** What the rules of a frame guarantee: the effect of each power-up, the
    brick loop's choice and score, the fate of stuck and fallen balls, that
    bricks only ever wear down and the score never falls, and the
    life-loss and level-advance rules. */
module FrameFacts {
  import opened Common
  import opened Levels
  import opened Physics
  import opened Frame

  /** Bricks only wear: `after` is `before` with some live bricks' hits
      lowered, never below zero; nothing else about any brick changes. */
  predicate Wears(before: seq<Brick>, after: seq<Brick>)
  {
    |before| == |after| &&
    forall j :: 0 <= j < |before| ==>
      after[j] == before[j] ||
      (Live(before[j]) && after[j] == before[j].(hits := after[j].hits) && 0 <= after[j].hits < before[j].hits)
  }

  lemma WearsTrans(a: seq<Brick>, b: seq<Brick>, c: seq<Brick>)
    requires Wears(a, b) && Wears(b, c)
    ensures Wears(a, c)
  {
    forall j | 0 <= j < |a|
      ensures c[j] == a[j] ||
              (Live(a[j]) && c[j] == a[j].(hits := c[j].hits) && 0 <= c[j].hits < a[j].hits)
    {
      if b[j] != a[j] && c[j] != b[j] {
        assert Live(b[j]);
      }
    }
  }

  /** Worn bricks never gain hits, and a live brick never goes negative. */
  lemma WearsBounds(before: seq<Brick>, after: seq<Brick>, j: nat)
    requires Wears(before, after) && j < |before|
    ensures after[j].hits <= before[j].hits
    ensures Live(before[j]) ==> 0 <= after[j].hits
    ensures Live(after[j]) ==> Live(before[j])
  {
  }

  // ---------------------------------------------------------------------
  // Power-ups

  /** Multi-ball adds exactly one free ball, moving up, after the others. */
  lemma SpawnMulti(w: World, r: PowerDraws)
    requires |w.balls| > 0
    ensures var v := Spawn(w, Multi, r);
      |v.balls| == |w.balls| + 1 && v.balls[..|w.balls|] == w.balls &&
      !v.balls[|w.balls|].stuck && v.balls[|w.balls|].vy <= 0.0 &&
      v == w.(balls := v.balls)
  {
  }

  /** A big paddle is between 100 and 300 wide, whatever its width was. */
  lemma SpawnBig(w: World, r: PowerDraws)
    ensures var v := Spawn(w, Big, r);
      100.0 <= v.paddle.width <= 300.0 && v == w.(paddle := w.paddle.(width := v.paddle.width))
  {
  }

  /** Sticky marks every current ball and changes nothing else;
      its reversal clears the mark on every ball. */
  lemma SpawnSticky(w: World, r: PowerDraws)
    ensures var v := Spawn(w, Sticky, r);
      |v.balls| == |w.balls| && v == w.(balls := v.balls) &&
      forall i :: 0 <= i < |v.balls| ==> v.balls[i] == w.balls[i].(sticky := true)
    ensures var v := StickyReverted(w);
      |v.balls| == |w.balls| && v == w.(balls := v.balls) &&
      forall i :: 0 <= i < |v.balls| ==> v.balls[i] == w.balls[i].(sticky := false)
  {
  }

  /** The laser clears exactly one live brick when there is one, and does
      nothing otherwise. */
  lemma SpawnLaser(w: World, r: PowerDraws)
    ensures var v := Spawn(w, Laser, r);
      v == w.(bricks := v.bricks) && |v.bricks| == |w.bricks| &&
      (Cleared(w.bricks) ==> v == w) &&
      (!Cleared(w.bricks) ==>
         exists j :: 0 <= j < |w.bricks| && Live(w.bricks[j]) &&
                     v.bricks == w.bricks[j := w.bricks[j].(hits := 0)])
  {
  }

  /** No power-up touches the score or the lives, and bricks only wear. */
  lemma SpawnWears(w: World, kind: PowerUp, r: PowerDraws)
    requires kind == Multi ==> |w.balls| > 0
    ensures var v := Spawn(w, kind, r);
      v.score == w.score && v.lives == w.lives && Wears(w.bricks, v.bricks) &&
      |v.balls| >= |w.balls|
  {
    if kind == Laser {
      SpawnLaser(w, r);
    }
  }

  // ---------------------------------------------------------------------
  // The brick loop

  /** With no live brick in reach, the brick loop changes nothing. */
  lemma CollideMiss(w: World, bi: nat, env: Env)
    requires bi < |w.balls|
    requires forall j :: 0 <= j < |w.bricks| ==> !Struck(w.bricks[j], w.balls[bi], env.width)
    ensures Collide(w, bi, env) == w
  {
  }

  /** The brick loop hits the first live brick in reach, and only that one:
      it loses exactly one hit, the ball bounces, 100 is scored when the
      brick is cleared and 25 otherwise. Only a cleared brick's power-up is
      released; without one, no other brick and no other ball changes. */
  lemma CollideHit(w: World, bi: nat, env: Env, i: nat)
    requires bi < |w.balls| && i < |w.bricks|
    requires Struck(w.bricks[i], w.balls[bi], env.width)
    requires forall j :: 0 <= j < i ==> !Struck(w.bricks[j], w.balls[bi], env.width)
    ensures var v := Collide(w, bi, env);
      |v.bricks| == |w.bricks| && v.bricks[i].hits == w.bricks[i].hits - 1 &&
      v.bricks[i] == w.bricks[i].(hits := v.bricks[i].hits) &&
      v.score == w.score + (if v.bricks[i].hits == 0 then 100 else 25) &&
      v.lives == w.lives
    ensures var v := Collide(w, bi, env);
      v.bricks[i].hits > 0 || w.bricks[i].powerup.None? ==>
        v.bricks == w.bricks[i := v.bricks[i]] && v.paddle == w.paddle &&
        v.balls == w.balls[bi := Deflect(w.balls[bi], Offset(w.balls[bi], w.bricks[i], env.width).0,
                                          Offset(w.balls[bi], w.bricks[i], env.width).1)]
  {
    var b := w.balls[bi];
    var h := FirstHitFrom(w.bricks, b, env.width, 0);
    assert h == Some(i);
    var (dx, dy) := Offset(b, w.bricks[i], env.width);
    var k := Hit(w.bricks[i]);
    var v := w.(balls := w.balls[bi := Deflect(b, dx, dy)], bricks := w.bricks[i := k],
                score := w.score + HitScore(k));
    if k.hits == 0 && k.powerup.Some? {
      var kind := k.powerup.value;
      SpawnWears(v, kind, env.draws(bi));
      if kind == Laser {
        SpawnLaser(v, env.draws(bi));
        assert !Live(v.bricks[i]);
      }
    }
  }

  /** The brick loop never lowers the score, and bricks only wear. */
  lemma CollideWears(w: World, bi: nat, env: Env)
    requires bi < |w.balls|
    ensures var v := Collide(w, bi, env);
      w.score <= v.score && v.lives == w.lives && Wears(w.bricks, v.bricks) && |v.balls| >= |w.balls|
  {
    var b := w.balls[bi];
    match FirstHitFrom(w.bricks, b, env.width, 0)
    case None =>
    case Some(i) =>
      var (dx, dy) := Offset(b, w.bricks[i], env.width);
      var k := Hit(w.bricks[i]);
      var v := w.(balls := w.balls[bi := Deflect(b, dx, dy)], bricks := w.bricks[i := k],
                  score := w.score + HitScore(k));
      assert Wears(w.bricks, v.bricks);
      if k.hits == 0 && k.powerup.Some? {
        SpawnWears(v, k.powerup.value, env.draws(bi));
        WearsTrans(w.bricks, v.bricks, Spawn(v, k.powerup.value, env.draws(bi)).bricks);
      }
  }

  // ---------------------------------------------------------------------
  // One ball, all balls

  /** A stuck ball is pinned to the paddle and stays in play; nothing else changes. */
  lemma StuckBallPinned(w: World, bi: nat, env: Env)
    requires bi < |w.balls| && w.balls[bi].stuck
    ensures var v := BallStep(w, bi, env);
      |v.balls| == |w.balls| && v == w.(balls := v.balls) &&
      v.balls[bi].x == w.paddle.x + w.paddle.width / 2.0 &&
      v.balls[bi].y == w.paddle.y - w.balls[bi].radius - 2.0 &&
      forall j :: 0 <= j < |w.balls| && j != bi ==> v.balls[j] == w.balls[j]
  {
  }

  /** A free ball that ends its pass below the bottom edge is removed, and
      the balls before and after it keep their order; one that does not
      stays where it is. */
  lemma FallenBallRemoved(w: World, bi: nat, env: Env)
    requires bi < |w.balls| && !w.balls[bi].stuck
    ensures var c := Collide(w.(balls := w.balls[bi := Fly(w.balls[bi], w.paddle, env)]), bi, env);
      var v := BallStep(w, bi, env);
      bi < |c.balls| &&
      (Fallen(c.balls[bi], env.height) ==>
         |v.balls| == |c.balls| - 1 &&
         (forall j :: 0 <= j < bi ==> v.balls[j] == c.balls[j]) &&
         (forall j :: bi < j < |c.balls| ==> v.balls[j - 1] == c.balls[j])) &&
      (!Fallen(c.balls[bi], env.height) ==> v == c)
  {
    var m := w.(balls := w.balls[bi := Fly(w.balls[bi], w.paddle, env)]);
    CollideWears(m, bi, env);
  }

  /** One pass of the ball loop never lowers the score, keeps the lives,
      and bricks only wear. */
  lemma BallStepWears(w: World, bi: nat, env: Env)
    requires bi < |w.balls|
    ensures var v := BallStep(w, bi, env);
      w.score <= v.score && v.lives == w.lives && Wears(w.bricks, v.bricks)
  {
    if !w.balls[bi].stuck {
      var m := w.(balls := w.balls[bi := Fly(w.balls[bi], w.paddle, env)]);
      CollideWears(m, bi, env);
    }
  }

  /** So does the whole backward ball loop. */
  lemma {:induction false} BallsFromWears(w: World, k: nat, env: Env)
    requires k <= |w.balls|
    decreases k
    ensures var v := BallsFrom(w, k, env);
      w.score <= v.score && v.lives == w.lives && Wears(w.bricks, v.bricks)
  {
    if k > 0 {
      var s := BallStep(w, k - 1, env);
      BallStepWears(w, k - 1, env);
      BallsFromWears(s, k - 1, env);
      WearsTrans(w.bricks, s.bricks, BallsFrom(s, k - 1, env).bricks);
    }
  }

  // ---------------------------------------------------------------------
  // Lives, the whole frame, the next level

  /** With balls in play nothing happens; with none, a life is lost and
      exactly one stuck, non-sticky ball is served iff a life remains. */
  lemma LoseLifeFacts(w: World)
    ensures |w.balls| > 0 ==> LoseLife(w) == w
    ensures |w.balls| == 0 ==>
      var v := LoseLife(w);
      v.lives == w.lives - 1 && v == w.(balls := v.balls, lives := v.lives) &&
      (|v.balls| == 1 <==> v.lives > 0) && (|v.balls| == 0 <==> v.lives <= 0) &&
      (|v.balls| == 1 ==> v.balls[0].stuck && !v.balls[0].sticky)
  {
  }

  /** A whole frame never lowers the score, bricks only wear, and a life
      is lost exactly when the ball loop leaves no ball in play. */
  lemma UpdateFacts(w: World, mouseX: Option<real>, keys: map<string, bool>, env: Env)
    ensures var v := Step(w, mouseX, keys, env);
      w.score <= v.score && Wears(w.bricks, v.bricks) &&
      (v.lives == w.lives || v.lives == w.lives - 1)
    ensures var moved := w.(paddle := MovePaddle(w.paddle, mouseX, keys, env.dt, env.width));
      var after := BallsFrom(moved, |moved.balls|, env);
      Step(w, mouseX, keys, env).lives == w.lives - 1 <==> |after.balls| == 0
  {
    var moved := w.(paddle := MovePaddle(w.paddle, mouseX, keys, env.dt, env.width));
    BallsFromWears(moved, |moved.balls|, env);
  }

  /** A level is left only once it is cleared, for the next one in the
      catalog. */
  lemma AdvanceFacts(levels: seq<Level>, bricks: seq<Brick>, current: Level)
    ensures Advance(levels, bricks, current).Some? ==> Cleared(bricks) && Advance(levels, bricks, current).value in levels
    ensures Cleared(bricks) && 0 <= FindIndex(levels, current.id) < |levels| - 1 ==>
              Advance(levels, bricks, current) == Some(levels[FindIndex(levels, current.id) + 1])
  {
  }

  /** Clearing the last level offers nothing more; clearing a level whose id
      the catalog lacks offers the first level, since `findIndex` gives -1. */
  lemma AdvanceAtEnds(levels: seq<Level>, bricks: seq<Brick>, current: Level)
    requires Cleared(bricks)
    ensures FindIndex(levels, current.id) == |levels| - 1 ==> Advance(levels, bricks, current).None?
    ensures FindIndex(levels, current.id) == -1 && |levels| > 0 ==> Advance(levels, bricks, current) == Some(levels[0])
  {
  }

  /** The pause key as written never pauses and throws the level's progress
      away: a scored point, a worn brick or a lost life is undone. */
  lemma PauseRestartsLevel(w: World, paused: bool, lv: Level, width: real, height: real)
    requires w.score > 0
    ensures var (v, p) := PauseKeyAsWritten(w, paused, lv, width, height);
      !p && v.score == 0 < w.score && v.lives == 3 && v.bricks == LevelBricks(lv) && v != w
  {
  }
}
