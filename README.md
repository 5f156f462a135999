# Frigate Hop — a Dafny model of the game engine

Frigate Hop is a canvas game: a frigate starts at the bottom of the screen
and goes up through rows of drifting icebergs and mines to a goal band at
the top. An up press scores a point when it ends above the y the previous
press started from. A collision ends the game. Reaching the goal band starts
a level transition. When the transition ends, the next level begins. Each
level is at least as hard as the one before: hazards are faster, and rows,
hazards per row and the mine chance grow until they reach their caps. When
the game ends, the score is offered to a top-five high-score table.

This project models the state part of the game and proves properties of it:

- **`Engine.GameEngine`** models the hook `useGameLogic` in
  `src/hooks/useGameLogic.ts`. Each closure variable is a field: player,
  obstacles, wake particles, score, level, transition and game-over flags,
  goal-highlight value and last move time. The canvas scale factors are
  constants. The methods are the hook's entry points. `Init` is `initGame`,
  including its first frame. `HandleKey(key, now, draws)` is
  `handleKeyPress`. `Tick` is the state part of one `gameLoop` frame.
  `FinishTransition(draws)` is the body of the transition timer.
- The pure parts live in their own modules:
  - `Geometry`: rectangles, padding and the strict overlap test.
  - `Vessel`: a key press acting on the ship, and the scoring rule.
  - `Wake`: spawning particles and fading them.
  - `Obstacles`: the level difficulty curve, field generation and hazard
    movement.
  - `Collision`: the padded collision boxes.
- **`Classic.ClassicEngine`** models the older engine in
  `src/hooks/useGameLogic.tsx`. It has four fixed lanes, an 800-unit
  field, unpadded collision, 20-unit moves and 100 points per crossing.
- **`HighScores.SaveHighScore`** models `saveHighScore` in
  `src/components/GameOverlay.tsx`. A score that was saved less than a
  minute ago is not saved again. Otherwise the table becomes the stable
  descending sort of the old entries plus the new one, cut to five entries.

Coordinates, speeds and scale factors are exact `real`s. Every `Math.random()`
call becomes a caller-supplied draw in [0, 1). One draw record covers one
obstacle or one particle, with its fields in the order the source makes the
calls. Every `Date.now()` call becomes an integer `now` parameter.

Behaviour of the code worth knowing:

- A hazard that leaves the field wraps in the same frame. An iceberg at
  x = 795, 40 wide, moving right at 10, is at x = −40 after one frame, never
  at 805 (`Obstacles.WrapsInSameFrame`).
- A wake spawns only when strictly more than 32 ms have passed since the last
  spawn.
- An up press scores when the new y is above `lastY`. `lastY` is the y the
  previous press started from, not the y this press starts from. So an up
  press clamped at the top edge can still score
  (`Vessel.ClampedUpPressCanScore`), while going down and then up earns
  nothing (`Vessel.DownThenUpEarnsNothing`).
- A key that is not an arrow still runs the rest of the handler. It can spawn
  a wake, and it rewrites `lastX`/`lastY` and the velocity.
- Every obstacle gets a random initial rotation. Only a mine's rotation
  advances.
- The vertical padding of both collision boxes is scaled by `scaleX`, as is
  the vertical move step.
- The hazard speed `(0.8 + 0.2 * level) * scaleX` has no cap; it grows every
  level. Rows stop growing at level 11, hazards per row at level 6, the row
  spacing at level 8 and the mine chance at level 14.
- A row's y is `(100 + i * rowSpacing) * scaleY`, where `rowSpacing` is
  already scaled. So the spacing is scaled twice.
- `initGame` copies the old player, so the heading and velocity survive a
  restart. `initGame` does not reset `goalAnimation` or `lastMoveTime`. The
  ship stays on the canvas only from the first `initGame` on: before that it
  has its unscaled start values.

## Model

| member | source | states |
|---|---|---|
| `Geometry.Overlaps` | src/hooks/useGameLogic.ts:317-320 | only boxes of positive total extent overlap, and for boxes of positive size the test holds exactly when their extents intersect on both axes |
| `Geometry.OverlapsSymmetric` | src/hooks/useGameLogic.ts:317-320 | the overlap test gives the same answer with its two boxes swapped |
| `Geometry.Shrink` | src/hooks/useGameLogic.ts:180-185 | the padded box has exactly `pad` removed from each of its four sides |
| `Geometry.TouchingDoesNotOverlap` | src/hooks/useGameLogic.ts:317-320 | boxes that only share an edge, or lie further apart, do not overlap |
| `Geometry.OverlapsIffCommonPoint` | src/hooks/useGameLogic.ts:317-320 | for boxes of positive size, the four strict inequalities hold exactly when some point lies strictly inside both boxes |
| `Vessel.KeyMove` | src/hooks/useGameLogic.ts:399-431 | an arrow moves only its own axis, by exactly the step or up to the canvas edge when the step would cross it, and sets the heading; a non-arrow keeps x, y and heading; the size is kept; the history becomes the pre-move position; the velocity is the displacement |
| `Vessel.ScoreDelta` | src/hooks/useGameLogic.ts:403-410 | a press earns 0 or 1 point, and 1 exactly when it is an up press whose new y is below the `lastY` recorded before the press |
| `Vessel.KeyMoveStaysOnCanvas` | src/hooks/useGameLogic.ts:402-423 | a ship on the canvas stays on it, and each arrow moves its axis by at most the step, in its own direction |
| `Vessel.DownThenUpEarnsNothing` | src/hooks/useGameLogic.ts:403-431 | down then up returns to the start y, and the up press does not score |
| `Vessel.ClampedUpPressCanScore` | src/hooks/useGameLogic.ts:404-409 | an up press at the top edge leaves y unchanged but still scores when the previous press started lower |
| `Vessel.Presses` | src/hooks/useGameLogic.ts:387-432 | a run of k presses earns between 0 and k points |
| `Vessel.UpRunScores` | src/hooks/useGameLogic.ts:403-431 | starting with the history not above the ship, n up presses that stay below the top edge earn exactly n points and raise the ship by n steps |
| `Wake.TrailVelocity` | src/hooks/useGameLogic.ts:83-107 | a fresh particle drifts away from the heading at between 0.5 and 1 unit per frame, and sideways by at most 0.25 |
| `Wake.SpawnPoint` | src/hooks/useGameLogic.ts:73-107 | a particle appears 5 units inside the ship's trailing edge, within half the spread of 8 of the centre line |
| `Wake.SpawnParticle` | src/hooks/useGameLogic.ts:110-117 | a fresh particle has alpha 0.6, size in [2, 4), the spawn point, and its velocity scaled per axis |
| `Wake.Spawned` | src/hooks/useGameLogic.ts:76-118 | one particle per draw, in draw order, all spawned behind the same ship |
| `Wake.Advance` | src/hooks/useGameLogic.ts:123-126 | one frame moves a particle by its velocity, which it keeps, fades it by exactly 0.025 and grows it |
| `Wake.AdvanceAll` | src/hooks/useGameLogic.ts:121-129 | a frame never adds particles, and every survivor has positive alpha |
| `Wake.AdvanceOne` | src/hooks/useGameLogic.ts:121-129 | one particle survives a frame exactly when its alpha exceeds 0.025 |
| `Wake.AdvanceAllAppend` | src/hooks/useGameLogic.ts:122-128 | the filter works element by element and keeps the order: the survivors of a + b are those of a followed by those of b |
| `Wake.AdvanceAllMembers` | src/hooks/useGameLogic.ts:122-128 | every survivor is an advanced input whose alpha exceeded 0.025, and every such input survives |
| `Wake.AdvanceAllKeepsAlive` | src/hooks/useGameLogic.ts:121-129 | alphas stay in (0, 0.6] from frame to frame |
| `Wake.SpawnedAlive` | src/hooks/useGameLogic.ts:110-117 | fresh particles have alphas in (0, 0.6] |
| `Obstacles.GetLevelConfig` | src/hooks/useGameLogic.ts:142-149 | from level 1 on: 1 to 6 rows; mine chance in (0, 0.5]; row spacing between 85 and 120 times scaleY; positive speed |
| `Obstacles.LevelConfigMonotone` | src/hooks/useGameLogic.ts:142-149 | rows, speed, mine chance and row spacing never decrease from one level to a later one |
| `Obstacles.LevelConfigSaturates` | src/hooks/useGameLogic.ts:142-149 | there are 6 rows exactly from level 11, mine chance 0.5 exactly from level 14, and, for a positive scale, the widest spacing exactly from level 8 |
| `Obstacles.ObstaclesPerRow` | src/hooks/useGameLogic.ts:160 | 1 to 3 hazards per row, and 3 from level 6 |
| `Obstacles.PerRowMonotone` | src/hooks/useGameLogic.ts:144-160 | a later level never has fewer hazards per row, nor fewer hazards in all |
| `Obstacles.ObstacleCount` | src/hooks/useGameLogic.ts:154-162 | a level has between 1 and 18 hazards |
| `Obstacles.MakeObstacle` | src/hooks/useGameLogic.ts:162-173 | a generated hazard has its row's y, one of the two sizes and a unit direction, and is a mine exactly when its kind draw is below the mine chance |
| `Obstacles.MakeObstacleBounds` | src/hooks/useGameLogic.ts:165-170 | a generated hazard starts in [0, 800 * scaleX), its speed lies in [level speed, level speed + 0.5 * scaleX), and it is well formed |
| `Obstacles.RowCount` | src/hooks/useGameLogic.ts:144 | from level 1 on, a level has between 1 and 6 rows |
| `Obstacles.Row` | src/hooks/useGameLogic.ts:159-174 | a row has one hazard per draw, each made from its own draw at the row's height |
| `Obstacles.FieldRows` | src/hooks/useGameLogic.ts:154-157 | there is one row per row of draws, and row i lies at height (100 + i * rowSpacing) * scaleY |
| `Obstacles.RowY` | src/hooks/useGameLogic.ts:156 | with a non-negative spacing and a positive scale, every row lies at or below 100 * scaleY |
| `Obstacles.RowsDescend` | src/hooks/useGameLogic.ts:154-157 | with a positive spacing, each row lies strictly below the rows before it |
| `Obstacles.Flatten` | src/hooks/useGameLogic.ts:159 | the rows joined one after the other, in row order (no contract of its own: `FlattenLength` and `FlattenMember` state its length and its members) |
| `Obstacles.FlattenLength` | src/hooks/useGameLogic.ts:159 | joining rows of equal length n gives rows × n hazards |
| `Obstacles.FlattenMember` | src/hooks/useGameLogic.ts:159 | a hazard is in the joined rows exactly when it is in one of the rows |
| `Obstacles.Generate` | src/hooks/useGameLogic.ts:151-176 | the field has exactly rows × per-row hazards |
| `Obstacles.GeneratedLayout` | src/hooks/useGameLogic.ts:151-176 | a level's field is well formed, and a hazard is in it exactly when it is made from the draw of some row i and column j, at height (100 + i * rowSpacing) * scaleY |
| `Obstacles.MoveObstacle` | src/hooks/useGameLogic.ts:292-299 | a hazard moves by speed × direction and wraps to −width or the canvas width once fully off an edge, ending in [−width, canvas width]; only a mine's rotation grows, by 0.01, and nothing else about the hazard changes |
| `Obstacles.WrapsInSameFrame` | src/hooks/useGameLogic.ts:293-295 | x = 795, width 40, speed 10, moving right on 800 ends at −40 in one frame |
| `Obstacles.MoveAll` | src/hooks/useGameLogic.ts:292-300 | every hazard is moved by `MoveObstacle`, in place and in order, and none is added or removed |
| `Obstacles.MoveAllWellFormed` | src/hooks/useGameLogic.ts:289-301 | moving keeps every hazard well formed |
| `Collision.Collides` | src/hooks/useGameLogic.ts:303-322 | true exactly when some hazard's padded box overlaps the ship's padded box |
| `Collision.PlayerBox` | src/hooks/useGameLogic.ts:178-186 | the ship's box has 12 * scaleX (heading up or down) or 8 * scaleX (sideways) cut off each of its four sides |
| `Collision.HazardBox` | src/hooks/useGameLogic.ts:309-315 | a hazard's box has 12 * scaleX (mine) or 8 * scaleX (iceberg) cut off each of its four sides |
| `Collision.Hits` | src/hooks/useGameLogic.ts:308-321 | the hit test, written out as four strict comparisons on the unpadded rectangles: ship padding 12 or 8 by heading, hazard padding 12 for a mine and 8 for an iceberg, each times scaleX |
| `Collision.EdgeContactIsSafe` | src/hooks/useGameLogic.ts:317-320 | padded boxes that only meet along an edge do not collide |
| `Collision.ClearAbove` | src/hooks/useGameLogic.ts:309-320 | hazards wholly above the ship's top edge cannot hit it |
| `Collision.CollisionExample` | src/hooks/useGameLogic.ts:303-322 | an up-facing ship at (100, 100), 80 × 30, hits an iceberg at (100, 100), 40 × 40, at scale 1, but not once the iceberg is at x = 300 |
| `Engine.FadeGoal` | src/hooks/useGameLogic.ts:282-286 | a positive highlight drops by exactly 0.02 per frame; one at or below 0 is kept |
| `Engine.FadeGoalInRange` | src/hooks/useGameLogic.ts:282-286 | the goal highlight never grows on its own and stays in (−0.02, 1] |
| `Engine.FadeGoalSteps` | src/hooks/useGameLogic.ts:282-286 | after n ≤ 50 frames a full highlight is 1 − 0.02·n |
| `Engine.FadeGoalSettles` | src/hooks/useGameLogic.ts:282-286 | a full highlight reaches exactly 0 after 50 frames and stays there |
| `Engine.FirstFieldClear` | src/hooks/useGameLogic.ts:434-455 | the level-1 field, even after one frame of movement, cannot hit a ship at the start height |
| `Engine.GameEngine.constructor` | src/hooks/useGameLogic.ts:45-69 | the start state: the unscaled ship at (400, 550), heading up; no hazards; no wake; score 0; level 1; both flags clear; last move time = now |
| `Engine.GameEngine.CheckCollision` | src/hooks/useGameLogic.ts:303-322 | false while transitioning, else true exactly when some hazard's padded box overlaps the ship's |
| `Engine.GameEngine.UpdateWakeParticles` | src/hooks/useGameLogic.ts:121-129 | the wake becomes the ordered survivors of one frame, and nothing else changes |
| `Engine.GameEngine.UpdateObstacles` | src/hooks/useGameLogic.ts:289-301 | no change while transitioning; otherwise each hazard moves one frame in place, and nothing else changes |
| `Engine.GameEngine.StartLevelTransition` | src/hooks/useGameLogic.ts:324-328 | raises the flag and sets the highlight to 1, and nothing else changes |
| `Engine.GameEngine.Tick` | src/hooks/useGameLogic.ts:338-385 | runs only while the game is on, since a collision schedules no further frame; the highlight fades, the wake advances, the hazards move; a collision sets game over and does not start a transition; otherwise a ship above 50 * scaleY starts a transition unless one is running; ship, score, level and clock are untouched |
| `Engine.GameEngine.HandleKey` | src/hooks/useGameLogic.ts:387-432 | no state changes once the game is over or while transitioning; otherwise 3 particles are appended behind the pre-move ship exactly when more than 32 ms passed, and then the clock is reset; the ship moves as `KeyMove` says, the score grows by `ScoreDelta`, nothing else changes, and a ship on the canvas stays on it |
| `Engine.GameEngine.CreateWakeParticles` | src/hooks/useGameLogic.ts:71-119 | appends one particle per draw, behind the current ship |
| `Engine.GameEngine.CreateObstacles` | src/hooks/useGameLogic.ts:151-176 | the field is replaced by the current level's generated field |
| `Engine.GameEngine.Init` | src/hooks/useGameLogic.ts:434-455 | level 1, score 0, no wake, ship scaled at (400, 550) with its old heading and velocity, the level-1 field moved by one frame; the first frame neither ends the game nor starts a transition |
| `Engine.GameEngine.FinishTransition` | src/hooks/useGameLogic.ts:329-335 | level + 1; y and lastY become 550 * scaleY, with x and score kept; the field is regenerated for the new level; the flag is cleared |
| `Classic.MakeHazard` | src/hooks/useGameLogic.tsx:32-39 | an 80 × 40 hazard in its lane, with x in [0, 700), speed in [2, 4) and a unit direction |
| `Classic.CreateHazards` | src/hooks/useGameLogic.tsx:30-40 | exactly four hazards, one per lane |
| `Classic.CreateHazardsLayout` | src/hooks/useGameLogic.tsx:30-40 | hazard i lies in lane 100·(i+1), is 80 × 40, has a unit direction, x in [0, 700) and speed in [2, 4) |
| `Classic.MoveHazard` | src/hooks/useGameLogic.tsx:69-73 | a hazard moves by speed × direction and wraps at 800 and −width, ending in [−width, 800] with everything but x unchanged |
| `Classic.MoveHazards` | src/hooks/useGameLogic.tsx:68-74 | every hazard moves by `MoveHazard`, in order, none added or removed |
| `Classic.Touches` | src/hooks/useGameLogic.tsx:79-82 | the unpadded ship and hazard rectangles overlap strictly on all four sides |
| `Classic.AnyTouch` | src/hooks/useGameLogic.tsx:76-84 | true exactly when the unpadded ship rectangle strictly overlaps some hazard rectangle |
| `Classic.ClearBelow` | src/hooks/useGameLogic.tsx:76-84 | a ship whose top is at or below every hazard's bottom touches none |
| `Classic.Steer` | src/hooks/useGameLogic.tsx:122-140 | each arrow moves 20 along its axis, clamped to 0, 570, 0 and 740; only left and right set the facing; other keys change nothing |
| `Classic.SteerStaysInField` | src/hooks/useGameLogic.tsx:122-140 | the ship stays in [0, 740] × [0, 570] |
| `Classic.SteerN` | src/hooks/useGameLogic.tsx:122-140 | repeated presses of one key keep the ship's size and keep it in the field |
| `Classic.UpPresses` | src/hooks/useGameLogic.tsx:125-127 | n up presses that do not reach the top edge raise the ship by exactly 20·n and keep x |
| `Classic.CrossingTakes26Presses` | src/hooks/useGameLogic.tsx:112-127 | from y = 550, 25 up presses do not reach the goal band and 26 do |
| `Classic.ClassicEngine.constructor` | src/hooks/useGameLogic.tsx:18-28 | a 60 × 30 ship at (400, 550) with no facing; no hazards; score 0 |
| `Classic.ClassicEngine.UpdateObstacles` | src/hooks/useGameLogic.tsx:68-74 | every hazard moves one frame in place, and nothing else changes |
| `Classic.ClassicEngine.Tick` | src/hooks/useGameLogic.tsx:86-120 | the frame reports game over exactly on a collision after the move, and then does not score; otherwise a ship above y = 50 earns exactly 100 points, goes back to y = 550 and lights the goal band; the score stays a non-negative multiple of 100 |
| `Classic.ClassicEngine.HandleKey` | src/hooks/useGameLogic.tsx:122-140 | the ship moves as `Steer` says, with no game-over guard |
| `Classic.ClassicEngine.Init` | src/hooks/useGameLogic.tsx:142-145 | a fresh four-lane field then the first frame, which cannot end the game for a ship at or below y = 440; after a collision or without a crossing the ship and score are kept and the highlight fades, otherwise the ship goes back to y = 550 with 100 more points and a full highlight |
| `HighScores.IsRecentDuplicate` | src/components/GameOverlay.tsx:19-24 | true exactly when some stored entry has the same score and is less than 60000 ms older than now |
| `HighScores.Insert` | src/components/GameOverlay.tsx:34 | inserting adds exactly one entry |
| `HighScores.InsertFacts` | src/components/GameOverlay.tsx:34 | inserting into a sorted table keeps it sorted and adds exactly the new entry |
| `HighScores.SortDescFacts` | src/components/GameOverlay.tsx:33-34 | the sort orders by descending score and is a permutation of its input |
| `HighScores.SortDesc` | src/components/GameOverlay.tsx:34 | the sort keeps the number of entries |
| `HighScores.InsertStable` | src/components/GameOverlay.tsx:34 | inserting into a sorted table puts the new entry behind the entries that already have its score |
| `HighScores.SortDescStable` | src/components/GameOverlay.tsx:34 | the sort is stable: the entries of any one score keep their input order |
| `HighScores.Take` | src/components/GameOverlay.tsx:35 | the cut keeps the first min(n, length) entries, n being 5 in the save |
| `HighScores.SortDescSorted` | src/components/GameOverlay.tsx:34 | sorting a sorted table leaves it unchanged |
| `HighScores.SaveHighScore` | src/components/GameOverlay.tsx:13-39 | a save is written exactly when there is no recent duplicate, and otherwise the table is unchanged; a written table holds min(5, old length + 1) entries, is non-increasing by score, and takes each entry from the old table or the new one at most as often as it occurs there |
| `HighScores.SaveKeepsBest` | src/components/GameOverlay.tsx:26-37 | every cut entry scores no more than every kept one, and with fewer than five old entries nothing is cut |
| `HighScores.SaveTwiceSameAsOnce` | src/components/GameOverlay.tsx:17-37 | after a written save, saving the same score again less than 60 s later leaves the table as the first save left it, whether the first entry survived the cut or not |
| `HighScores.CutEntryExample` | src/components/GameOverlay.tsx:17-37 | a score below five higher ones is written but cut away, and saving it again rewrites the same five entries |

## Left out

- Drawing: the ship, hazard, wake, level and level-complete drawing, the
  background gradient and the waves. They only render the state. Of the goal
  zone only the fade `goalAnimation -= 0.02` is kept.
- The vertical bob of mines. It depends on the wall clock, is computed at
  draw time and is not part of the collision state.
- `transitionStartTime`. Only the level-complete drawing reads it.
- Scheduling. `requestAnimationFrame`, `cancelAnimationFrame` and `setTimeout`
  become explicit calls of `Tick`, `Init` and `FinishTransition`. The model
  has no asynchrony and no timer cancellation. The source never cancels the
  transition timer, so `FinishTransition` has no precondition on the flag.
- The canvas check. `gameLoop` returns early when there is no canvas or 2D
  context. That is host I/O.
- The `setScore` and `setGameOver` callbacks. They report state to the host;
  the model exposes the fields instead.
- Randomness and the clock are parameters. The model only claims the ranges
  the code guarantees and makes no distribution claims.
- IEEE-754 rounding. The arithmetic is exact, so the model does not predict
  float-rounding effects, such as the exact frame on which an alpha reaches
  0.
- React plumbing (`useCallback`, the hook closures), src/components/Game.tsx,
  src/App.tsx, src/components/StartScreen.tsx,
  src/components/TouchControls.tsx and the image loading in
  src/hooks/useGameAssets.tsx. These are framework glue, layout and I/O.
- Storage in `saveHighScore`. `localStorage`, JSON, ISO date strings and the
  page reload are left out. The table is a sequence of (score, date in ms),
  and one clock reading both tests for duplicates and dates the new entry.
  The source reads the clock twice.
- The `rotation || 0` default. Every generated obstacle has a rotation.
- `Obstacles.Generate`: requires level ≥ 1 and the random draws already
  grouped by row, with as many rows and per-row draws as the level has. The
  engine only calls it with such a level, since `Valid` keeps
  `currentLevel >= 1`, and the grouping only fixes which draw feeds which
  hazard.
- Frames after game over in the classic engine. `Classic.ClassicEngine.Tick`
  has no game-over flag to require, so a caller may run a frame after a
  collision, although the source schedules none after one.
- `Engine.GameEngine.HandleKey`: requires exactly three particle draws, even
  when the press spawns nothing. In that case the draws are unused.
- `HighScores.SaveTwiceSameAsOnce`: only covers a first save that was
  written. When the first save is suppressed by an older entry, a second
  save after that entry's minute has passed is written.
