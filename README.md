# Brick breaker: a verified model of the game core

This project models the core of a browser brick-breaker game:

- the canvas game component: the paddle, the balls and the bricks, one animation frame of physics, the four power-ups, lives, and advancing to the next level;
- the level catalog: eight levels whose bricks come from nested grid loops with per-level filters and random hit counts and power-ups;
- the level list page: search, six levels per page, prev/next buttons;
- the level detail page: the level id is read from the URL path;
- the link component: it picks `target` and `rel` defaults for external URLs.

Modules:

- `Common`:
  - `Option`;
  - `Unit`, a random draw in [0, 1);
  - small numeric helpers.
- `Levels`: the catalog's data model, the eight generators and the lookups.
  - `Generator` names the eight grid generators.
  - `Keeps` is each generator's inclusion filter.
  - `HitsFor` and `PowerUpFor` turn the random draws into a brick.
  - `BuildBricks` and `PushRow` are the nested generator loops.
  - `GridBricks` is the function those loops are proved against.
- `LevelFacts`: what every generator produces.
  - Bricks stay inside the grid, pass the filter and come out in row-major order.
  - Every kept cell gets a brick.
  - Each level's brick count: 32, 23, 60, 45, 54, 30, 78, 75.
  - Power-up domains.
  - Catalog ids "1" to "8", unique and in order.
  - `find` and next-level lookup on the catalog.
- `Physics`: balls, the paddle and bricks as values.
  - Clamping and paddle steering.
  - Integration and wall bounces.
  - Paddle rebound.
  - Brick geometry and the circle-against-rectangle touch test.
  - Deflection, wear and score.
- `Frame`: one frame's rules as functions on a `World` snapshot (paddle, balls, bricks, score, lives):
  - level set-up and launch;
  - the power-ups;
  - the brick loop of one ball and the step of one ball;
  - the backward walk over all balls;
  - life loss and the win check.
- `FrameFacts`: what those rules guarantee.
  - Bricks only wear down: `Wears`.
  - Score never falls.
  - Lives drop by at most one per frame.
  - The first brick touched is the one struck.
  - A fallen ball is removed and the others keep their order.
  - What each power-up does.
- `Game`: `GameState`, a class whose fields the handlers update in place. The bricks are an array written in place.
  - The frame, ball, brick, power-up and life methods are proved to leave `Snapshot()` equal to the matching `Frame` rule applied to the old snapshot.
  - The launch, sticky and key methods state each field's new value instead.
  - `KeyDown` implements the intended pause toggle, not the as-written `Frame.PauseKeyAsWritten` (see Findings).
- `LevelBrowser`:
  - case-insensitive search over title, description and difficulty;
  - JavaScript `slice` semantics;
  - page count and page contents;
  - the button updaters.
- `LevelDetail`:
  - `split("/")` and `filter(Boolean)`, with join/split round trip and slash-insensitivity lemmas;
  - the `levels/<id>` rule;
  - lookup with no fallback.
- `AppLink`: the external-link test and the attribute defaults.

## Model

| member | source | states |
|---|---|---|
| Physics.Clamp | src/components/BrickBreakerGame.tsx:33-35 | the result lies in [a, b] when a <= b, is v when v is already inside, and is the nearer bound otherwise; with b < a it is a, as `Math.max(a, Math.min(b, v))` gives |
| Physics.MovePaddle | src/components/BrickBreakerGame.tsx:251-260 | only the paddle's x changes, and with no mouse and neither key held the paddle is unchanged |
| Physics.MovedPaddleInside | src/components/BrickBreakerGame.tsx:251-260 | whenever the paddle moves (mouse present or a key held), it ends within [0, width - paddle width] |
| Physics.PaddleStaysInside | src/components/BrickBreakerGame.tsx:251-260 | a paddle inside the playfield stays inside whatever the input |
| Physics.MouseFirst | src/components/BrickBreakerGame.tsx:251-252 | with a mouse position the keys make no difference, and the paddle centres on the mouse when that fits |
| Physics.LeftFirst | src/components/BrickBreakerGame.tsx:255-256 | with no mouse, left wins over right, and left never moves the paddle to the right |
| Physics.RightMovesRight | src/components/BrickBreakerGame.tsx:257-258 | right alone never moves the paddle to the left |
| Physics.Integrate | src/components/BrickBreakerGame.tsx:273-274 | integration changes only the ball's position |
| Physics.Walls | src/components/BrickBreakerGame.tsx:277-287 | the left check wins over the right check; each wall puts the centre one radius inside and points the velocity away from it with the same magnitude; the top is checked independently; a ball off every wall is unchanged |
| Physics.WallsConfine | src/components/BrickBreakerGame.tsx:277-287 | after the wall checks the ball's centre is at least one radius from both side walls and from the top |
| Physics.WallsIdempotent | src/components/BrickBreakerGame.tsx:277-287 | running the wall checks twice is the same as once |
| Physics.Rebound | src/components/BrickBreakerGame.tsx:290-302 | a ball off the paddle or moving up is unchanged; otherwise vx is the computed turn, vy points up with the computed magnitude, and a sticky ball becomes stuck |
| Physics.OnPaddle | src/components/BrickBreakerGame.tsx:290-291 | the paddle contact test: vertical overlap, centre over the paddle, moving down; `Rebound` and `ReboundOnce` state its use |
| Physics.ReboundOnce | src/components/BrickBreakerGame.tsx:290-302 | a rebounded ball no longer counts as hitting the paddle, so one contact gives one rebound |
| Physics.Pin | src/components/BrickBreakerGame.tsx:267-271 | a stuck ball sits centred on the paddle, radius + 2 above it, with nothing else changed |
| Physics.BrickW | src/components/BrickBreakerGame.tsx:311 | a brick is at least 30 wide and at least a fourteenth of the playfield |
| Physics.Offset | src/components/BrickBreakerGame.tsx:313-319 | dx is negative exactly when the ball is left of the brick and positive exactly when it is right of it, and zero over the brick; the same holds for dy above and below |
| Physics.Touches | src/components/BrickBreakerGame.tsx:320-321 | the circle test `dx² + dy² <= r²`; what it implies is stated by `CentreOnBrickTouches` and `TouchIsNear` |
| Physics.CentreOnBrickTouches | src/components/BrickBreakerGame.tsx:313-321 | a ball whose centre lies on a brick's rectangle touches it |
| Physics.TouchIsNear | src/components/BrickBreakerGame.tsx:316-321 | a touching ball's centre is within one radius of the brick's nearest point on each axis |
| Physics.Deflect | src/components/BrickBreakerGame.tsx:323-329 | the larger offset axis decides: horizontal flips vx, otherwise vy flips; nothing else changes |
| Physics.DeflectTwice | src/components/BrickBreakerGame.tsx:323-329 | deflecting twice with the same offsets restores the ball |
| Physics.Hit | src/components/BrickBreakerGame.tsx:331 | a hit lowers a live brick's hits by exactly one and never below zero, changing nothing else |
| Physics.HitScore | src/components/BrickBreakerGame.tsx:332-340 | a hit scores 100 exactly when it clears the brick and 25 otherwise |
| Common.FloorIndex | src/components/BrickBreakerGame.tsx:233 | `Math.floor(Math.random() * n)` is a valid index below n |
| Common.NatToString | src/components/BrickBreakerGame.tsx:90 | a number's decimal text is non-empty and all digits |
| Frame.ChooseId | src/components/BrickBreakerGame.tsx:63 | a non-empty route id wins; otherwise a non-empty `level` query parameter; otherwise "1", so the id is never empty |
| Frame.OpenLevel | src/components/BrickBreakerGame.tsx:64 | the catalog entry with the id, else the first level; no level only for an empty catalog |
| Frame.BrickOf | src/components/BrickBreakerGame.tsx:88-93 | a brick in play keeps its specification's grid position and hits, records the starting position, and gets id "<level>-<index>" |
| Frame.LevelBricks | src/components/BrickBreakerGame.tsx:88-93 | one brick in play per specification, in order |
| Frame.StartPaddle | src/components/BrickBreakerGame.tsx:97-102 | the paddle is 140 wide and centred |
| Frame.StartBall | src/components/BrickBreakerGame.tsx:104-116 | the first ball starts stuck to the paddle and not sticky |
| Frame.Fresh | src/components/BrickBreakerGame.tsx:88-121 | a level starts with score 0, three lives, one stuck ball that is not sticky, and one brick per level entry, carrying that entry's hits |
| Frame.PauseKeyAsWritten | src/components/BrickBreakerGame.tsx:69-200 | as written, the pause key leaves the game unpaused, with score 0, three lives and the level's full brick list |
| Frame.Aim | src/components/BrickBreakerGame.tsx:131 | a launch's horizontal speed lies in [-3, 3) |
| Frame.Launched | src/components/BrickBreakerGame.tsx:128-134 | after the launch a ball is never stuck, and a ball that was free is unchanged |
| Frame.LaunchAll | src/components/BrickBreakerGame.tsx:127-135 | launching keeps the number of balls, leaves no ball stuck, and keeps every free ball as it was |
| Frame.LaunchFacts | src/components/BrickBreakerGame.tsx:127-135 | a launched ball is free and moves up at its own speed with vx in [-3, 3); a free ball is untouched |
| Frame.MultiBall | src/components/BrickBreakerGame.tsx:203-215 | the extra ball is free, not sticky, moves up at the first ball's speed, and appears 16 to one side of the first ball at its height |
| Frame.LiveFrom | src/components/BrickBreakerGame.tsx:231 | the indices listed are exactly the live bricks from the start index on |
| Frame.Laser | src/components/BrickBreakerGame.tsx:229-236 | with no live brick nothing changes; otherwise exactly one live brick is set to zero hits |
| Frame.Spawn | src/components/BrickBreakerGame.tsx:202-237 | a power-up never removes a ball or a brick |
| Frame.FirstHitFrom | src/components/BrickBreakerGame.tsx:306-343 | the brick found is struck by the ball and is the first one from the start index that is; no result means no brick there is struck |
| Frame.FirstHitStep | src/components/BrickBreakerGame.tsx:306-321 | the search takes brick i when it is live and touched, and otherwise moves on to i + 1 |
| Frame.Collide | src/components/BrickBreakerGame.tsx:305-343 | the brick loop never removes a ball or a brick |
| Frame.BallStep | src/components/BrickBreakerGame.tsx:263-350 | one ball's step removes at most that ball, so at least bi balls remain for the rest of the backward walk |
| Frame.Fly | src/components/BrickBreakerGame.tsx:273-302 | flight changes no ball's radius, speed, stickiness or colour, and a free ball becomes stuck exactly when it is sticky and lands on the paddle |
| Frame.Drop | src/components/BrickBreakerGame.tsx:345-349 | a fallen ball is removed and the others keep their order; a ball still in play changes nothing; nothing but the balls changes |
| Frame.BallsFrom | src/components/BrickBreakerGame.tsx:264 | the backward loop over the balls never adds or removes a brick |
| Frame.Respawn | src/components/BrickBreakerGame.tsx:363-373 | the served ball is stuck to the paddle and not sticky |
| Frame.LoseLife | src/components/BrickBreakerGame.tsx:353-377 | paddle, bricks and score never change; with balls left nothing changes, and with none, one life is lost and a ball is served exactly when lives remain |
| Frame.Step | src/components/BrickBreakerGame.tsx:239-377 | one frame never adds or removes a brick |
| Frame.Advance | src/components/BrickBreakerGame.tsx:380-394 | no next level is offered while a brick is live, and an offered level is from the catalog |
| FrameFacts.WearsTrans | src/components/BrickBreakerGame.tsx:331 | wearing bricks down then wearing them again is still wearing them down |
| FrameFacts.WearsBounds | src/components/BrickBreakerGame.tsx:331 | worn bricks never gain hits, a live brick never drops below zero, and a dead brick never comes back |
| FrameFacts.SpawnMulti | src/components/BrickBreakerGame.tsx:203-216 | multi-ball appends one free ball moving up, keeping every existing ball and all other state |
| FrameFacts.SpawnBig | src/components/BrickBreakerGame.tsx:217-222 | big paddle changes only the paddle width, to a value in [100, 300] |
| FrameFacts.SpawnSticky | src/components/BrickBreakerGame.tsx:223-228 | sticky sets every ball sticky and its timer clears it on every ball; nothing else changes |
| FrameFacts.SpawnLaser | src/components/BrickBreakerGame.tsx:229-236 | the laser changes only bricks; on a cleared field nothing changes, otherwise one live brick goes to zero |
| FrameFacts.SpawnWears | src/components/BrickBreakerGame.tsx:202-237 | no power-up changes score or lives or adds hits to a brick |
| FrameFacts.CollideMiss | src/components/BrickBreakerGame.tsx:306-343 | a ball that strikes no live brick leaves the world unchanged |
| FrameFacts.CollideHit | src/components/BrickBreakerGame.tsx:321-341 | the first brick struck loses one hit and the score grows by 100 or 25; without a released power-up only that brick and the ball's deflection change, and the paddle stays as it was |
| FrameFacts.CollideWears | src/components/BrickBreakerGame.tsx:306-343 | the brick loop never lowers the score, never changes lives, and only wears bricks down |
| FrameFacts.StuckBallPinned | src/components/BrickBreakerGame.tsx:267-271 | a stuck ball's step pins it to the paddle and changes nothing else |
| FrameFacts.FallenBallRemoved | src/components/BrickBreakerGame.tsx:345-349 | a ball below the playfield is removed and the other balls keep their order; a ball still in play stays |
| FrameFacts.BallStepWears | src/components/BrickBreakerGame.tsx:263-350 | one ball's step never lowers the score, never changes lives, and only wears bricks down |
| FrameFacts.BallsFromWears | src/components/BrickBreakerGame.tsx:264-350 | the whole backward ball loop never lowers the score, never changes lives, and only wears bricks down |
| FrameFacts.LoseLifeFacts | src/components/BrickBreakerGame.tsx:353-377 | while a ball remains nothing happens; with none, one life is lost and a stuck ball is served exactly when lives remain |
| FrameFacts.UpdateFacts | src/components/BrickBreakerGame.tsx:239-394 | one frame never lowers the score, only wears bricks down, and loses a life exactly when the ball loop leaves no ball in play |
| FrameFacts.AdvanceFacts | src/components/BrickBreakerGame.tsx:380-394 | a next level is offered only when no brick is live, and it is the catalog successor of the current level |
| FrameFacts.AdvanceAtEnds | src/components/BrickBreakerGame.tsx:385-392 | on a cleared field the last level offers nothing more, and an id missing from the catalog offers the first level |
| FrameFacts.PauseRestartsLevel | src/components/BrickBreakerGame.tsx:69-200 | as written, the pause key leaves the game unpaused and restarts the level: score 0, three lives, every brick restored |
| Game.GameState.constructor | src/components/BrickBreakerGame.tsx:88-121 | a new game holds the level's bricks in order, a centred 140-wide paddle, one stuck ball, score 0, three lives, not paused |
| Game.GameState.KeyDown | src/components/BrickBreakerGame.tsx:124-138 | space launches the stuck balls; "p" toggles only the pause flag, leaving paddle, score, lives and bricks as they were |
| Game.GameState.Launch | src/components/BrickBreakerGame.tsx:127-135 | the ball loop launches each stuck ball and leaves the free ones and the rest of the state alone |
| Game.GameState.SetSticky | src/components/BrickBreakerGame.tsx:224-226 | the loop sets or clears sticky on every ball and changes nothing else |
| Game.GameState.SpawnPowerup | src/components/BrickBreakerGame.tsx:202-237 | the handler's effect on the state is exactly the power-up rule |
| Game.GameState.RevertBig | src/components/BrickBreakerGame.tsx:219-221 | the big-paddle timer restores the 140 width |
| Game.GameState.RevertSticky | src/components/BrickBreakerGame.tsx:225-227 | the sticky timer clears sticky on every ball |
| Game.GameState.HitBricks | src/components/BrickBreakerGame.tsx:306-343 | the in-place brick loop has exactly the effect of the brick-loop rule |
| Game.GameState.Strike | src/components/BrickBreakerGame.tsx:321-341 | striking the first touched brick deflects the ball, wears the brick in the array, scores it and releases its power-up |
| Game.GameState.StepBall | src/components/BrickBreakerGame.tsx:263-350 | one pass of the ball loop has exactly the effect of the one-ball rule |
| Game.GameState.StepBalls | src/components/BrickBreakerGame.tsx:264-350 | the backward loop over the balls has exactly the effect of the all-balls rule |
| Game.GameState.LoseLife | src/components/BrickBreakerGame.tsx:353-377 | the life-loss step follows the life rule |
| Game.GameState.Update | src/components/BrickBreakerGame.tsx:239-394 | one update moves the paddle, steps the balls and handles a lost life as the frame rule says, and names the next level when the field is cleared |
| Game.GameState.Tick | src/components/BrickBreakerGame.tsx:180-182 | while paused a frame changes nothing, otherwise it is one update |
| Levels.HitsFor | src/data/levels.ts:32-217 | every generated brick takes one to three hits; the first level's take one, the second, fourth and sixth at most two |
| Levels.PowerUpFor | src/data/levels.ts:81-192 | the third level only releases sticky or laser, the fifth laser or multi-ball, the seventh laser |
| Levels.Keeps | src/data/levels.ts:60 | each generator's `if` filter (lines 60, 108, 156, 205; the others keep every cell); `BrickKept` and the count lemmas state its effect |
| Levels.Rows | src/data/levels.ts:34 | each generator's row count (lines 34, 58, 83, 106, 131, 154, 179, 203); the layout and count lemmas state its effect |
| Levels.Cols | src/data/levels.ts:35 | each generator has between 8 and 14 columns, so it never exceeds the 14 columns of the playfield layout |
| Levels.GridBricks | src/data/levels.ts:32-47 | the bricks a generator returns; `BuildBricks` is proved to equal it and `GridBricksAt` characterises it |
| Levels.PushRow | src/data/levels.ts:59-68 | the inner loop appends, left to right, one brick per column that passes the filter |
| Levels.BuildBricks | src/data/levels.ts:56-71 | the nested loops return one brick per kept cell in row-major order |
| Levels.CatalogOf | src/data/levels.ts:24-219 | the catalog has eight levels |
| Levels.Catalog | src/data/levels.ts:24-219 | the catalog has eight levels; entry k has its generator's id and the bricks that generator returns |
| Levels.FindIndex | src/components/BrickBreakerGame.tsx:385 | `findIndex` gives the first position with the id, or -1 when no level has it |
| Levels.FindLevel | src/pages/LevelDetail.tsx:26 | `find` returns a level exactly when one has the id, and then the first such level |
| Levels.NextLevel | src/components/BrickBreakerGame.tsx:385-386 | the next level is exactly `levels[findIndex + 1]`, and there is none exactly when the id's position is the last one |
| LevelFacts.GridBricksAt | src/data/levels.ts:32-47 | the i-th brick is the generator's brick for the i-th kept cell |
| LevelFacts.BrickAt | src/data/levels.ts:36-38 | each brick's x and y are its cell's column and row, inside the grid |
| LevelFacts.BrickKept | src/data/levels.ts:60 | every brick sits on a cell that passes the level's filter |
| LevelFacts.BrickRules | src/data/levels.ts:64-66 | each brick's hits and power-up come from the draws for its own cell |
| LevelFacts.KeptBefore | src/data/levels.ts:58-59 | earlier bricks come from earlier cells in row-major order |
| LevelFacts.GridBricksInGrid | src/data/levels.ts:56-71 | every brick is in the grid, on a kept cell, with one to three hits |
| LevelFacts.GridBricksOrdered | src/data/levels.ts:56-71 | bricks are in row-major order, so no cell appears twice |
| LevelFacts.GridBricksComplete | src/data/levels.ts:56-71 | every kept cell of the grid has a brick |
| LevelFacts.FullLayout | src/data/levels.ts:81-95 | an unfiltered level has rows × columns bricks, brick i sitting at row i / cols, column i % cols |
| LevelFacts.FullBrick | src/data/levels.ts:81-95 | brick i of an unfiltered level sits at row i / cols, column i % cols |
| LevelFacts.SunriseLayout | src/data/levels.ts:33-46 | the first level has 32 bricks, all one hit |
| LevelFacts.EmeraldLayout | src/data/levels.ts:82-93 | the third level has 60 bricks |
| LevelFacts.EmeraldHits | src/data/levels.ts:88 | third-level hits follow the row: 3 on rows divisible by 3, 2 on other even rows, else 1 |
| LevelFacts.VolcanicLayout | src/data/levels.ts:130-142 | the fifth level has 54 bricks |
| LevelFacts.MidnightLayout | src/data/levels.ts:178-190 | the seventh level has 78 bricks |
| LevelFacts.KeptEveryOther | src/data/levels.ts:60 | a row that keeps every other column keeps half its columns, rounded by where it starts |
| LevelFacts.CobaltKept | src/data/levels.ts:58-60 | the second level's checkerboard keeps 23 cells |
| LevelFacts.CobaltCount | src/data/levels.ts:56-71 | the second level has 23 bricks |
| LevelFacts.NeonRow | src/data/levels.ts:108 | an even row keeps every column, an odd row every even column |
| LevelFacts.NeonKept | src/data/levels.ts:106-108 | the fourth level keeps 45 cells |
| LevelFacts.NeonCount | src/data/levels.ts:104-120 | the fourth level has 45 bricks |
| LevelFacts.CrystalRow | src/data/levels.ts:156 | row r keeps the columns strictly between r and 11 - r |
| LevelFacts.CrystalKept | src/data/levels.ts:154-156 | the sixth level's cascade keeps 30 cells |
| LevelFacts.CrystalCount | src/data/levels.ts:152-168 | the sixth level has 30 bricks |
| LevelFacts.DroppedEveryThird | src/data/levels.ts:205 | a row that drops every third column keeps the rest |
| LevelFacts.AuroraKept | src/data/levels.ts:203-205 | the eighth level keeps 75 cells |
| LevelFacts.AuroraCount | src/data/levels.ts:201-217 | the eighth level has 75 bricks |
| LevelFacts.PowerUpDomains | src/data/levels.ts:81-192 | every brick of the third, fifth and seventh levels carries only that level's power-ups |
| LevelFacts.CatalogIdAt | src/data/levels.ts:24-219 | catalog entry k has id k + 1 |
| LevelFacts.CatalogIds | src/data/levels.ts:24-219 | eight levels with ids "1" to "8" in order, all different, each holding its own generator's bricks |
| LevelFacts.CatalogFind | src/components/BrickBreakerGame.tsx:64 | looking up id k + 1 finds catalog entry k |
| LevelFacts.FindUnique | src/pages/LevelDetail.tsx:26 | with unique ids, the lookup finds the one position that holds the id |
| LevelFacts.CatalogNext | src/components/BrickBreakerGame.tsx:385-392 | after level k + 1 comes level k + 2, and after the eighth there is none |
| LevelFacts.NextOfUnknown | src/components/BrickBreakerGame.tsx:385-386 | an id not in the catalog gives index -1, so the next level is the first |
| LevelBrowser.LowerChar | src/pages/Levels.tsx:13 | lower-casing leaves no upper-case letter and changes nothing else |
| LevelBrowser.Lower | src/pages/Levels.tsx:13 | lower-casing keeps the length |
| LevelBrowser.LowerTwice | src/pages/Levels.tsx:13-15 | lower-casing twice is lower-casing once |
| LevelBrowser.IncludesEmpty | src/pages/Levels.tsx:13 | every string includes the empty query |
| LevelBrowser.Includes | src/pages/Levels.tsx:13 | `includes`: a string can include only queries no longer than itself |
| LevelBrowser.Matches | src/pages/Levels.tsx:12-15 | the search test over title, description and difficulty; the empty query matches every level |
| LevelBrowser.QueryCaseIgnored | src/pages/Levels.tsx:11-16 | the query's case makes no difference to the match |
| LevelBrowser.Filtered | src/pages/Levels.tsx:11-16 | a level is in the result exactly when it is in the catalog and matches, and the result is no longer than the catalog |
| LevelBrowser.FilteredInOrder | src/pages/Levels.tsx:11-16 | the result keeps the catalog's order |
| LevelBrowser.EmptyQueryKeepsAll | src/pages/Levels.tsx:11-16 | the empty query shows every level |
| LevelBrowser.TotalPages | src/pages/Levels.tsx:18 | the page count is the smallest number of six-item pages that hold the results |
| LevelBrowser.SliceBound | src/pages/Levels.tsx:19 | a `slice` bound lands inside the array |
| LevelBrowser.Slice | src/pages/Levels.tsx:19 | within the array, `slice` is the plain sub-sequence, clamped at the end |
| LevelBrowser.PageItems | src/pages/Levels.tsx:19 | a page holds at most six levels: the six (or fewer) results from page × 6 |
| LevelBrowser.EveryResultOnItsPage | src/pages/Levels.tsx:18-19 | result i appears on page i / 6 at position i % 6, and that page exists |
| LevelBrowser.SetQuery | src/pages/Levels.tsx:31-34 | typing a query returns to the first page |
| LevelBrowser.PrevPage | src/pages/Levels.tsx:59 | Prev never goes below page 0, and otherwise goes back one page |
| LevelBrowser.NextPage | src/pages/Levels.tsx:69 | Next never goes past the last page, and otherwise goes forward one page |
| LevelBrowser.PagesShown | src/pages/Levels.tsx:66 | the indicator shows at least one page |
| LevelBrowser.ButtonsKeepPageValid | src/pages/Levels.tsx:58-71 | enabled buttons and a new query keep the page valid, and an enabled Next goes forward exactly one page |
| LevelDetail.Split | src/pages/LevelDetail.tsx:24 | `split` always gives at least one piece |
| LevelDetail.SplitNoSlash | src/pages/LevelDetail.tsx:24 | no piece contains a slash |
| LevelDetail.JoinSplit | src/pages/LevelDetail.tsx:24 | joining the pieces with "/" gives back the path |
| LevelDetail.SplitAround | src/pages/LevelDetail.tsx:24 | splitting a + "/" + b gives a's pieces followed by b's |
| LevelDetail.NonEmptyAppend | src/pages/LevelDetail.tsx:24 | `filter(Boolean)` distributes over concatenation |
| LevelDetail.NonEmpty | src/pages/LevelDetail.tsx:24 | `filter(Boolean)` keeps only non-empty pieces, each taken from the input |
| LevelDetail.Segments | src/pages/LevelDetail.tsx:24 | no segment is empty or contains a slash |
| LevelDetail.SegmentsAround | src/pages/LevelDetail.tsx:24 | the segments of a + "/" + b are a's followed by b's |
| LevelDetail.LeadingSlashIgnored | src/pages/LevelDetail.tsx:24 | a leading slash changes no segment |
| LevelDetail.TrailingSlashIgnored | src/pages/LevelDetail.tsx:24 | a trailing slash changes no segment |
| LevelDetail.DoubledSlashIgnored | src/pages/LevelDetail.tsx:24 | a doubled slash counts as one |
| LevelDetail.SplitWord | src/pages/LevelDetail.tsx:24 | a slash-free word is one piece and, unless empty, one segment |
| LevelDetail.PathIdFacts | src/pages/LevelDetail.tsx:25 | there is an id exactly when there are two segments and the first is "levels"; it is then the second, non-empty segment |
| LevelDetail.PathId | src/pages/LevelDetail.tsx:25 | a path's id is never empty and never contains a slash |
| LevelDetail.LevelsPath | src/pages/LevelDetail.tsx:24-25 | "/levels/<id>/..." names `<id>` for any slash-free, non-empty id, whatever follows |
| LevelDetail.DetailLevel | src/pages/LevelDetail.tsx:26 | the page shows a catalog level exactly when the path has an id some level carries, and then the first level with that id, as `find` returns |
| LevelDetail.NoFallback | src/pages/LevelDetail.tsx:26-28 | an unknown id shows "not found" here, while the game falls back to the first level |
| AppLink.Render | src/components/AppLink.tsx:18 | the anchor's href is the link target unchanged |
| AppLink.IsExternal | src/components/AppLink.tsx:13 | an external link is at least 7 characters long and starts with "http" |
| AppLink.FinalTarget | src/components/AppLink.tsx:14 | a given target wins; otherwise there is a target exactly when the link is external |
| AppLink.FinalRel | src/components/AppLink.tsx:15 | a given rel wins; otherwise there is a rel exactly when the link is external |
| AppLink.ExternalPrefixes | src/components/AppLink.tsx:13 | a link is external exactly when it starts with "http://" or "https://" |
| AppLink.ExternalExamples | src/components/AppLink.tsx:13 | the test is case-sensitive and needs both slashes: "HTTPS://…", "/levels/1", "http:/x" and "mailto:…" are internal |
| AppLink.Defaults | src/components/AppLink.tsx:14-15 | a given target or rel always wins; otherwise an external link gets "_blank" and "noopener noreferrer", and an internal one gets neither |

## Left out

- Rendering (the canvas background, the bricks, the rounded-rectangle paddle, the balls, the HUD) is not modelled. It draws and never changes the state.
- React is not modelled: component lifecycle, effect clean-up and `requestAnimationFrame` scheduling.
  - The per-frame `dt` (`min(32, t - last) / 16.6667`) is a parameter of `Env`.
  - The playfield size and the device pixel ratio (`canvas.width / DPR`) are also parameters.
- Event wiring is left out: touch, mouse-move, device tilt and resize listeners.
  - The mouse position is an `Option<real>` parameter.
  - The held keys are a `map<string, bool>` parameter, so the `keyState` writes in the key handlers are not modelled.
  - Touch and tilt setting the paddle position directly are not modelled.
- Physics.Rebound: the sin/cos/sqrt angle computation is not modelled, because it is floating-point trigonometry. It is a parameter `turn`, and only its use is modelled: vx is the first component and vy is minus the absolute value of the second.
- Timers are not modelled as time. The big-paddle and sticky `setTimeout` reverts are the separate methods `RevertBig` and `RevertSticky`. The 700 ms delay before the next level is left out: `Update` returns the next level.
- Game over is not modelled beyond lives reaching zero: the page reload and the toast messages are left out.
- `Math.random()` is a parameter.
  - For the catalog, draws are indexed by generator, row and column.
  - For launches, by ball index.
  - For power-ups, by the index of the ball that released them.
  - The catalog is built from one fixed table of draws, not a fresh random value per call.
- `URLSearchParams` and `window.location` are left out: the route id, the query parameter and the path are string parameters.
- `toLowerCase` is modelled for ASCII letters only.
- React's deferred state updaters (`setScore`, `setLives`, `setPaused`) take effect at once in the model.
  - LoseLife: a life is lost once per ball-less frame. Frames that run before React applies the updater are not modelled.
- Numbers are reals, not IEEE doubles, so rounding is not modelled.
- The level list's rendering is left out: cards, thumbnails and links.
- The detail page's markup is left out; only the lookup is modelled.
- The `children`, `className` and remaining props that `AppLink` passes through unchanged are not modelled.

The paddle is clamped only when it moves (BrickBreakerGame.tsx:251-260), and the big-paddle power-up can widen it past the right wall. `PaddleStaysInside` therefore requires the paddle to start inside, and `MovedPaddleInside` covers the frames in which it moves.

## Findings

| source | as written | input that shows it | evidently intended | confidence | as-written member | corrected member |
|---|---|---|---|---|---|---|
| src/components/BrickBreakerGame.tsx:200 | the set-up effect depends on `paused` and, when re-run, rebuilds the bricks and sets score 0, lives 3 and `paused` false (lines 88-120) | press "p" after scoring: the level restarts and play does not pause | "p" toggles pause and leaves the game state as it is | high; not executed | FrameFacts.PauseRestartsLevel | Game.GameState.KeyDown |

`Frame.PauseKeyAsWritten` is the as-written behaviour. `FrameFacts.PauseRestartsLevel` shows what it loses. `Game.GameState.KeyDown` implements the intended toggle, and its contract proves that nothing else changes.
