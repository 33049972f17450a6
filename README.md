# Play-scene core of a flap-to-avoid-obstacles game, in Dafny

This project models the part of the game's play scene (`PlayScene` in
`game.js`) that holds checkable logic. It covers three things:

- **The obstacle spawn policy.** `spawnPipe` uses the score and the number
  of live segments to choose a pipe type: a top column, a bottom column, or
  both columns around a gap. It then picks the gap and heights from a fixed
  difficulty table and builds the columns out of 50-pixel tree segments.
  Only one segment of each spawn is left unscored.
- **The per-frame step.** `update` moves every segment left by 1.5 pixels.
  It scores each unscored segment the bird has passed, one point each, and
  destroys segments left of x = -50. It ends the game on a collision or when
  the bird's y is at or past the ground or the top of the field.
- **The session state machine and the high-score slot.** This covers
  `flap`, `endGame`, pausing and resuming, the ESC and flap input handlers,
  the spawn timer's on/off state, and `getHighScore`, `saveHighScore` and
  `resetHighScore` over an abstract storage slot.

Modules:

- `Wrappers`: `Option`.
- `Pipes`: the segment record, and a count of the segments still waiting
  to be scored.
- `Spawn`: the tier table, the random draws, the decision `Decide`, and the
  segment geometry `Column` and `Segments`, all as functions.
- `Frame`: the functions `Scrolled`, `ScorePass`, `Gained` and `OnScreen`.
  They specify the loops of `update`.
- `HighScore`: the storage slot as an `Option<int>`.
- `Play`: the class `PlayScene` and its methods. The methods keep the
  scene's fields as the source does and are proved against the functions
  above.

How the source is modelled:

- **Random draws.** Each `Phaser.Math.Between(lo, hi)` draw is an argument
  (`Draws`). `DrawsOk` states the closed range of each draw, so the spawn
  policy is a deterministic function.
- **Positions.** Positions are exact rationals (`real`). Examples are
  `gapSize / 2 = 77.5` and the 1.5-pixel step.
- **Math.ceil.** Written as `Ceil`, using `Floor`.
- **The bird's x.** Fixed at 100: the bird is created there and its
  horizontal velocity is never other than 0.
- **Scene inputs.** The bird's y and whether physics reported an overlap
  are arguments of `Update`.
- **The spawn timer.** A flag. `TimerTick` is one firing of the timer.
  Pausing stops only the physics (game.js:306) and not the scene clock the
  timer runs on (game.js:428). So the timer keeps firing while the game is
  paused, and the model allows that: `Valid()` keeps `timerActive` true
  during a pause.
- **Count-once scoring.** `PlayScene` keeps a ghost count of spawns.
  `Valid()` states that the score plus the number of segments still waiting
  to be scored equals the number of spawns. So every spawned gate is counted
  exactly once, or is still waiting to be scored.

Where the game's intended behaviour and its code differ, the model follows
the code:

- A finished session is meant to be terminal. The code still scores pipes
  in the frame that ended the game (see Findings).
- Difficulty is meant never to ease as the score grows. The code's table is
  in fact strictly harder at every threshold, and `TierStrict` proves that.
- The play scene reads the high score only when the session ends: in
  `saveHighScore` (game.js:408), and 500 ms later for the game-over screen
  (game.js:682). The model leaves the second read out, together with the
  delayed scene switch. The main menu also shows the high score, but that
  scene is not part of this model.
- The easiest tier (score below 3) sets no gap-centre range in the code.
  The model gives it none (`None`). That tier never yields a double, so the
  range is never used.

## Model

| member | source | states |
|---|---|---|
| Spawn.TierFor | game.js:466-508 | Every tier has a type-draw bound from 1 to 6, a gap from 138 to 170 pixels, and a non-empty height range within [120, 410]. A gap-centre range exists exactly from score 3 on, and it keeps both columns of a double at least 80 pixels high. `TierMonotone` and `TierStrict` state how the rows change with the score. |
| Spawn.IsFirstPipe | game.js:461 | The first-pipe test: nothing scored and no segment alive. A first pipe always falls in the easiest tier, which has no gap-centre range. `KindFor`, `HeightSpan` and `Decide` state what it forces. |
| Spawn.KindFor | game.js:460-508 | The first pipe is always a bottom pipe. Below score 3 no double is ever chosen. Within a tier, type-draw outcomes 0..kindMax-2 give a double, kindMax-1 a top pipe and kindMax a bottom pipe, both ways round (at score 10: 4 of 6 outcomes are doubles). |
| Spawn.Decide | game.js:458-519 | With score 0 and no live segment the spawn is a bottom pipe with height in [120,180], whatever the other draws. A double's gap centre lies in its tier's gap-centre range, and its gap is the tier's gap size. A single column's height lies in the tier's height range. Below score 3 the spawn is never a double. The spawn is a double exactly when `KindFor` gives a double, and a top pipe exactly when it gives a top pipe. A double's gap centre is the gap-centre draw, and a single column's height is the height draw. |
| Spawn.HeightSpan | game.js:461-508 | The first pipe's height range is [120, 180]. Every other range is the tier's height range, a non-empty range within [120, 410]. `Decide` states that a single column's height comes from it. |
| Spawn.GapYSpan | game.js:468-511 | The gap-centre draw of a double ranges over the tier's gap-centre range. For any other pipe it ranges over [150, 400]. Either way it is a non-empty range within [150, 410]. |
| Spawn.DrawsOk | game.js:461-553 | Draws that the spawn can make have a type draw from 0 to 6 (none is made for the first pipe), a gap-centre draw in [150, 410], and a single column's height draw in [120, 410]. `DrawsExist` shows that every state admits such draws. |
| Spawn.DrawsExist | game.js:461-553 | For every score and live count, some draws meet `DrawsOk`, so every spawn can be made. |
| Spawn.TopExtent | game.js:517-519 | A top pipe's column is its height draw high. A double's top column ends half a gap above the gap centre. `DoubleGeometry` and `TopSegments` state what this gives. |
| Spawn.BottomStart | game.js:547-555 | A bottom pipe's column starts its height draw above the ground. A double's bottom column starts half a gap below the gap centre. `DoubleGeometry` and `BottomSegments` state what this gives. |
| Spawn.Ceil | game.js:520 | Math.ceil: the result n satisfies n-1 < r ≤ n. |
| Spawn.Column | game.js:520-541 | A column covering a positive extent h has n segments, with 50(n-1) < h ≤ 50n (so n = ceil(h/50)). An extent ≤ 0 gives no segment. Segment i sits at x = 450, y = start + 50i + 25. Only the first segment is unscored, and only when asked. |
| Spawn.ColumnUnscored | game.js:533-538 | A column holds one unscored segment exactly when its first segment is to be scored and its extent is positive, otherwise none. |
| Spawn.SpawnScoresOnce | game.js:515-579 | Every spawn yields exactly one unscored segment, and it is the first one: the first top segment of a top or double pipe, the first bottom segment of a bottom pipe. |
| Spawn.SpawnAddsOneGate | game.js:515-579 | Appending a spawn to the live segments raises the number of segments waiting to be scored by exactly one. |
| Spawn.DoubleGeometry | game.js:511-556 | In a double, the top column's height gapY - gapSize/2 is positive. The bottom column starts above the ground at gapY + gapSize/2. The two are exactly gapSize apart. |
| Spawn.DoubleVisibleGap | game.js:517-559 | In a double, the gap between the drawn segments of the two columns is at most gapSize, more than gapSize - 50, and more than 88 pixels. |
| Spawn.Segments | game.js:515-579 | Every segment of a spawn is created at x = 450. `SpawnScoresOnce` states its scoring flags, and `DoubleVisibleGap` the gap of a double. |
| Spawn.TopSegments | game.js:516-543 | A bottom pipe has no top column. A top column of positive height starts at the top of the field, and its first segment is the unscored one. Its last segment covers the column's height by less than one segment. |
| Spawn.BottomSegments | game.js:546-579 | A top pipe has no bottom column. A bottom column that starts above the ground begins at its start line, and its last segment reaches the ground by less than one segment. Its first segment is unscored exactly for a bottom pipe. |
| Spawn.TierMonotone | game.js:466-508 | For scores s1 ≤ s2 the gap size does not grow, and the height bounds and the share of doubles among the type-draw outcomes do not shrink. |
| Spawn.TierStrict | game.js:466-508 | Across a tier threshold the gap size strictly decreases (170, 160, 155, 148, 138). The minimum height (120 to 200) and the maximum height (220 to 410) strictly increase. |
| Frame.Scrolled | game.js:599-600 | A scroll keeps every segment in its place in the order and lowers each one's x by exactly 1.5. Its y and scored flag do not change. |
| Frame.ScrolledUnscored | game.js:599-604 | Scrolling does not change the number of segments waiting to be scored. |
| Frame.Scorable | game.js:640 | A segment scores when it is behind the bird and not yet scored, so only an unscored segment scores. `Gained` counts these segments. |
| Frame.Mark | game.js:640-641 | The scoring test on one segment keeps its position, and leaves it scored exactly when it already was or lies behind the bird. A marked segment can never score again. |
| Frame.ScorePass | game.js:639-645 | The scoring pass keeps one segment per segment. `ScorePassAt` states what becomes of each, and `ScorePassConserves` what it awards. |
| Frame.Gained | game.js:639-645 | The points of one pass are at most the number of segments, and they are 0 exactly when no segment is both behind the bird and unscored. `ScorePassConserves` ties them to the flags the pass sets. |
| Frame.ScorePassAt | game.js:639-645 | After the scoring pass, segment k is scored exactly when it already was or its x is below the bird's. Nothing else about it changes. |
| Frame.ScorePassQuiet | game.js:639-645 | A pass over segments none of which is scorable changes nothing and awards nothing. |
| Frame.ScorePassLeavesNoneBehind | game.js:639-645 | After the pass, every segment behind the bird is scored. |
| Frame.ScorePassConserves | game.js:639-645 | The points awarded equal the number of flags the pass turns from false to true. |
| Frame.ScorePassIdempotent | game.js:639-645 | A second pass with unchanged positions leaves the segments as they are and awards nothing. |
| Frame.OnScreen | game.js:646-649 | The cleanup keeps no more segments than there were, and none of them lies left of x = -50. `OnScreenMembers` states exactly which segments it keeps. |
| Frame.OnScreenMembers | game.js:646-649 | A segment survives the cleanup exactly when it was live and its x is at least -50. |
| Frame.OnScreenCounts | game.js:646-649 | The cleanup keeps every copy of each segment at or right of x = -50, and no copy of any other: the multiset of kept segments is exactly that. |
| Frame.OnScreenKeepsAll | game.js:646-649 | With no segment left of -50, the cleanup changes nothing. |
| Frame.OnScreenKeepsUnscored | game.js:639-649 | If every off-screen segment is already scored, the cleanup removes no segment that is waiting to be scored. |
| Frame.WalkStep | game.js:639-650 | One step of the walk over the segments: the next segment is marked, adds a point exactly when it was scorable, and is kept exactly when it is on screen. |
| Frame.FrameConserves | game.js:639-649 | With the bird at or right of -50, scoring and cleanup together conserve the score plus the segments waiting to be scored. |
| HighScore.Read | game.js:402-405 | The high score is 0 when nothing is stored, and the stored value otherwise. |
| HighScore.AfterSave | game.js:407-414 | Saving writes the slot exactly when the score beats the stored high score. Afterwards the high score is the larger of the two. |
| HighScore.AfterSaveIdempotent | game.js:407-414 | Saving the same score twice is the same as saving it once. |
| HighScore.AfterSaveBounds | game.js:407-414 | After saving, the high score is at least the old high score and at least the saved score. |
| Play.PlayScene.constructor | game.js:104-209 | A new scene has score 0, no segments, is not started, over or paused, and has no timer. |
| Play.PlayScene.GetHighScore | game.js:402-405 | The scene's high score is 0 when the slot is empty. |
| Play.PlayScene.SaveHighScore | game.js:407-414 | Returns true exactly when the score beats the stored high score. The slot becomes `AfterSave` of the old slot, so the stored value is the larger of the two and is unchanged when the result is false. |
| Play.PlayScene.ResetHighScore | game.js:354-357 | After a confirmed reset the slot is empty and the high score reads 0. Without confirmation the slot is unchanged. |
| Play.PlayScene.Flap | game.js:416-449 | Once the game is over, a flap changes nothing, and after the start it changes no modelled state. The first flap starts the session and the timer and spawns exactly one pipe: a bottom pipe of height 120 to 180 with one unscored segment. The invariant is kept. |
| Play.PlayScene.OnFlapInput | game.js:188-197 | A pointer or space press changes nothing while the game is paused, over or already started. Otherwise it starts the session with the first pipe, as `Flap` does. |
| Play.PlayScene.TimerTick | game.js:428-433 | A timer firing adds the segments of `Decide` for the current score and live count, and only while the timer is active. Once the timer is stopped it changes nothing. It never changes the score or the session flags. It also fires while the game is paused, so spawns made during a pause stack up at x = 450. |
| Play.PlayScene.SpawnPipe | game.js:451-582 | When the game is over, nothing is added. Otherwise the live segments become the old ones followed by `Segments(Decide(score, live, draws))`. The count-once invariant is kept. |
| Play.PlayScene.CreatePipes | game.js:515-579 | The top column (for a top or double pipe), then the bottom column (for a bottom or double pipe), append exactly `Segments` of the decision. |
| Play.PlayScene.AddTopColumn | game.js:515-543 | The top-column step appends exactly `TopSegments` of the decision: nothing for a bottom pipe, otherwise a column starting at the canvas top. |
| Play.PlayScene.AddBottomColumn | game.js:545-579 | The bottom-column step appends exactly `BottomSegments` of the decision: nothing for a top pipe, otherwise a column reaching the ground. |
| Play.PlayScene.ScrollAndCheck | game.js:597-636 | A running frame first scrolls every segment, giving `Scrolled(old)`. The game then ends exactly on a collision, bird y ≥ 560 or bird y ≤ 0, the timer stops exactly then, and the high score is saved with the current score exactly then. |
| Play.PlayScene.AddColumn | game.js:520-541 | The segment loop appends exactly `Column(start, extent, scoreFirst)`. |
| Play.PlayScene.Update | game.js:584-652 | When over, paused or not yet started, a frame changes nothing. Otherwise the segments become `OnScreen(ScorePass(Scrolled(old)))` and the score rises by exactly `Gained` of the scrolled segments. The game ends exactly on a collision, bird y ≥ 560 or bird y ≤ 0, and the timer stops then. The high score is saved with the score from before this frame's points. The score never decreases and the invariant is kept. |
| Play.PlayScene.UpdateCorrected | game.js:584-652 | As `Update`, except that a frame that ends the game scrolls but scores and removes nothing. After such a frame the stored high score is at least the final score. |
| Play.PlayScene.CheckEnd | game.js:623-636 | The game is over afterwards exactly when it was before, or a collision or a bird-bounds condition holds. The high score is saved only when this check ends the game. |
| Play.PlayScene.ScrollPipes | game.js:599-604 | The scroll loop leaves the segments equal to `Scrolled(old)`. |
| Play.PlayScene.ScoreAndCleanup | game.js:639-650 | The scoring-and-destroy step leaves the segments equal to `OnScreen(ScorePass(old))` and adds exactly `Gained(old)` to the score. The count-once invariant is kept. |
| Play.PlayScene.WalkPipes | game.js:639-650 | The loop over the segments leaves them equal to `OnScreen(ScorePass(old))` and adds exactly `Gained(old)` to the score. |
| Play.PlayScene.EndGame | game.js:654-685 | Afterwards the game is over and the timer stopped. A repeated call changes nothing. The first call saves the score as `AfterSave` and reports whether it was a new high score. |
| Play.PlayScene.ShowPauseMenu | game.js:302-324 | The scene is paused afterwards exactly when it was already paused, or it is started and not over. |
| Play.PlayScene.ResumeGame | game.js:326-346 | Afterwards the scene is not paused. |
| Play.PlayScene.OnEscape | game.js:198-206 | In a started session that is not over, ESC toggles the pause. Otherwise it changes nothing. |
| Play.FirstPipeSegments | game.js:553-577 | A first pipe with height draw 120 is three segments. The first, unscored, is at y = 465, and scored ones follow at y = 515 and 565, all at x = 450. |
| Play.QuietStep | game.js:584-652 | With the bird in the air and the first pipe right of it, a frame moves the pipe 1.5 to the left and changes nothing else. |
| Play.GroundStep | game.js:624-650 | The frame in which the bird reaches the ground as the first pipe's leading segment passes it ends the game with the slot still empty and the score at 1. |
| Play.QuietFrame | game.js:599-650 | On the first pipe (`FirstPipeAt`) right of the bird by at least one step, a frame's scroll, scoring and cleanup only move it 1.5 to the left and award nothing. |
| Play.PassingFrame | game.js:639-645 | The frame in which the first pipe's leading segment moves from x = 100.5 to 99 awards exactly one point. |
| Play.LateScoreExample | game.js:624-650 | An input the model accepts, built from `FirstPipeSegments`, `QuietStep` and `GroundStep`, ends the session with score 1 while the stored high score stays 0. It exhibits the discrepancy of the frame that ends the game, though it is not a full run of the game (see Findings). |

## Left out

- Rendering and UI are left out: texts, graphics, tweens, the pause-menu
  widgets, and the boot, main-menu and game-over scenes. They hold no
  checkable logic.
- Arcade physics is left out: gravity, flap velocity, hitbox sizes and
  offsets, world bounds. The engine's overlap test is the `collided`
  argument of `Update`, and the bird's y is an argument too.
- Timer scheduling is left out: the 2200 ms spawn interval and the 500 ms
  delayed switch to the game-over scene. The spawn timer is only the
  `timerActive` flag, and `TimerTick` is one firing.
- How the storage slot holds its value is left out: the string encoding,
  `parseInt` of arbitrary text, and the `confirm` dialog. The slot is an
  `Option<int>` and the dialog's answer is the `confirmed` argument.
- The clouds, the debug-mode toggle (`toggleDebugMode`,
  `getDebugButtonText`) and every console message are left out, as
  cosmetic.
- `restartFromPause` is left out. Restarting the scene is a new
  `PlayScene`, which is the constructor.
- Destroying segments while `forEach` walks the live list is left out.
  Depending on the engine, this can make the walk skip the next segment
  until the next frame. The model performs the scoring pass and the
  removal as one clean pass over all segments.
- Eventual removal of every segment (after enough frames, x drops below
  -50) is not stated as a lemma over runs of frames. Each frame's removal
  is stated exactly.
- The gap-centre draw for a single pipe is constrained to [150, 400] as the
  source draws it, but the source never uses it, and neither does the model.

## Findings

| source | as written | input that shows it | evidently intended | confidence | as-written member | corrected member |
|---|---|---|---|---|---|---|
| game.js:624-650 | When `update` calls `endGame` for a collision or the bird's bounds, `endGame` saves the high score. The same frame then still runs the scoring loop, so a segment passing the bird in that frame raises the score after the save. The game-over screen gets the raised score but the old high-score flag and value. | Any frame in which the bird ends the game while an unscored leading segment crosses x = 100. The model shows one input it accepts: an empty slot, the first flap with height draw 120, 233 frames with bird y = 300, then one frame with bird y = 560. The session ends with score 1, but the slot stays empty (high score 0) and no new high score is reported. This input is not a run the game itself can make: it leaves out the spawn timer's firings and moves the bird from y = 300 to 560 in one frame. Neither changes the frame that shows the discrepancy. | A frame that ends the game scores nothing more, so the saved high score covers the final score. | medium, not executed | Play.LateScoreExample | Play.PlayScene.UpdateCorrected |
