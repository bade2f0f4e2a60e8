# Birthday game rules, modelled in Dafny

This project models the game rules of a small React birthday game. A hub
world leads to five minigames. Finishing a minigame unlocks a memory, and a
password-protected memory room screen shows the memories. That screen is a
component of its own (`MemoryRoomScreen.jsx`). The app as written renders only
a placeholder for the memory room screen and never mounts the component; the
model covers the component's own rules. With the canvas drawing,
audio, React scheduling and randomness taken away, each part of the game is a
small state machine. The model keeps these state machines and proves the
rules they promise:

- `Progress` (`src/App.jsx`): the top-level record with the completed
  levels, the unlocked memories, the current screen and the shared lives
  counter. Each `setGameState(prev => ...)` updater is a pure function. The
  class `Progress.App` holds the record and the 100 ms debounce of
  `loseLife`.
- `Hub` (`src/components/LevelHub.jsx`): which levels are open, how a level
  circle is styled, how the character walks and is clamped to the screen,
  which target is near enough to enter (the proximity loop), and what the
  Enter key does there.
- `Platformer` (`src/components/Level1_Platformer.jsx`): one tick of the side
  scroller. It covers invincibility, input, gravity, platform collision,
  level bounds, respawn on a fall or a hazard hit, checkpoints, heart pickup,
  camera and win. It also models the lives watcher and retry.
- `Rhythm` (`src/components/Level2_MoulinRouge.jsx`): the hit test of a key
  press, the miss penalty, the beat and second accumulators, beat spawning
  (single and double notes), the countdown and the end of the game.
- `Puzzle` (`src/components/Level3_PuzzleOfUs.jsx`): tile generation and
  scattering, picking the topmost tile and raising it, dragging, snapping
  and locking, the locked count, the win effect and the debug completion.
- `StarCollect` (`src/components/Level4_StarCollect.jsx`): frame time cap,
  spawn timers and the 25-star cap, the difficulty ramp, safe obstacle
  placement, movement, catching, culling, and the win or loss decision.
- `BossFight` (`src/components/Level5_BossFight.jsx`): the fire-rate gate,
  lanes, boss pacing and phases, projectile damage, attack spawning, and
  hazard hits gated by invincibility.
- `MemoryRoomScreen` (`src/components/MemoryRoomScreen.jsx`): the
  case-insensitive password gate and the five memory cards with their
  default fallback.
- Shared helpers live in `Geometry` (rectangles, the strict collision test,
  clamping), `Keys` (held keys as a set) and `Options`.

Each level keeps its React state record as a datatype. A static `Frame`
method (or `CheckHit`, `MouseUp` and so on) is the updater, written
imperatively with the source's loops: the platform loop, the checkpoint
loop, the `filter` callbacks that count what they remove, and the spawn
loops. Each loop is proved against a specification: a recursive function
where the loop folds a list, a quantified predicate (the proximity search) or
a closed form (tile generation and attack spawning). A
`Game` class per level holds the record together with the component's refs
(frame clock, accumulators, spawn counter, last shot time, attack timer).
Its `Tick` method plays one animation frame.

Inputs the program reads from the browser are parameters:

- the screen size;
- the held keys;
- timestamps, with the frame time derived from them as the source does;
- every `Math.random()` draw, as a number in [0, 1).

All positions are real numbers, and distances are compared as squares
instead of calling `Math.sqrt`.

Two facts the model brings out about the code as written:

- **The memory room cannot open.** It needs exactly six completed levels
  (`isMemoryRoomAvailable`). Only levels 1 to 5 ever call `completeLevel`,
  and a level is never recorded twice. So a game played from the start never
  reaches six (`Hub.MemoryRoomNeverOpens`).
- **The level 2 completion callback repeats.** After the timer has run out
  with 75 hits, the level 2 loop schedules `onComplete` on every frame,
  because `gameOver` is never set on that path. Two completions back to back
  leave the record as one does (`Progress.CompleteLevelIdempotent`). Each call
  is delayed by 500 ms, though, and sets the screen to the memory capsule and
  lives to 3. So callbacks still in flight can reopen a capsule the player has
  just closed.

## Model

| member | source | states |
|---|---|---|
| Progress.AfterCompleteLevel | src/App.jsx:58-85 | The level is in the completed list afterwards. It is appended only when absent, otherwise the list is unchanged. The memory is appended only when a payload is given and no memory exists for that level. The screen becomes the memory capsule showing the payload, lives become 3, and nothing else changes. |
| Progress.AfterStartLevel | src/App.jsx:87-94 | Sets the current level and its screen, and restores 3 lives. Completed levels, memories, progress and current memory are untouched. |
| Progress.AfterReturnToHub | src/App.jsx:96-101 | Only the screen changes, and it becomes the hub. |
| Progress.AfterResetLives | src/App.jsx:153-158 | Only the lives change, and they become 3. |
| Progress.AfterOpenMemoryRoom | src/App.jsx:160-165 | Only the screen changes, and it becomes the memory room. |
| Progress.AfterCloseMemory | src/App.jsx:167-173 | Goes to the hub and clears the current memory; nothing else changes. |
| Progress.AfterLoseLife | src/App.jsx:113-136 | When lives - 1 > 0, only the lives drop by one. At <= 0 on level 1, the decremented value is kept. At <= 0 on any other screen, lives reset to 3 and the screen becomes the hub. |
| Progress.ProgressPercent | src/App.jsx:52-55 | progress · 6 = completed · 100. It is non-negative, at most 100 while at most six levels are completed, and exactly 100 at six. |
| Progress.WithProgress | src/App.jsx:52-55 | The progress effect replaces only the progress field, with the percentage of the completed count. |
| Progress.CompleteLevelKeepsNoDuplicates | src/App.jsx:60-66 | Completing a level never introduces a duplicate into the completed list. |
| Progress.CompleteLevelIdempotent | src/App.jsx:58-85 | Completing the same level with the same payload twice gives the same record as doing it once. |
| Progress.CompleteLevelFirstMemoryWins | src/App.jsx:69-74 | At most one memory per level is kept, existing memories keep their places, and a second payload for a level is ignored. |
| Progress.LoseLifeBounds | src/App.jsx:113-136 | From 1..3 lives, losing a life off level 1 leaves 1..3 lives. On level 1 it leaves exactly one fewer, never negative. The screen either stays or becomes the hub. |
| Progress.ResetGameRestoresInitial | src/App.jsx:139-151 | The record a reset installs has nothing completed and 3 lives, and the progress effect leaves it unchanged. |
| Progress.ApplyKeepsConsistent | src/App.jsx:58-173 | Every updater preserves the reachable-state invariant. The invariant is: no duplicate completions, only levels 1..5 completed, one memory per level, and each memory belongs to a completed level. |
| Progress.CompletedAtMostFive | src/App.jsx:192-237 | In a consistent record at most five levels are completed, because only levels 1 to 5 are wired to `completeLevel`. |
| Progress.RunFromInitialConsistent | src/App.jsx:58-173 | Any sequence of the app's operations keeps the record consistent, with at most five completed levels. |
| Progress.InitialConsistent | src/App.jsx:18-26 | The initial record is consistent. |
| Progress.App.constructor | src/App.jsx:18-26 | The app starts from the initial record with the debounce ref at 0. |
| Progress.App.CompleteLevel | src/App.jsx:58-85 | The state becomes `AfterCompleteLevel` of the old state; the debounce ref is unchanged. |
| Progress.App.StartLevel | src/App.jsx:87-94 | The state becomes `AfterStartLevel` of the old state. |
| Progress.App.ReturnToHub | src/App.jsx:96-101 | The state becomes `AfterReturnToHub` of the old state. |
| Progress.App.LoseLife | src/App.jsx:103-136 | Within 100 ms of the last accepted call nothing changes. Otherwise the ref records `now` and the state becomes `AfterLoseLife`. |
| Progress.App.ResetGame | src/App.jsx:139-151 | The state becomes the initial record. |
| Progress.App.ResetLives | src/App.jsx:153-158 | The state becomes `AfterResetLives` of the old state. |
| Progress.App.OpenMemoryRoom | src/App.jsx:160-165 | The state becomes `AfterOpenMemoryRoom` of the old state. |
| Progress.App.CloseMemory | src/App.jsx:167-173 | The state becomes `AfterCloseMemory` of the old state. |
| Progress.App.RecomputeProgress | src/App.jsx:52-55 | The progress effect: the state becomes `WithProgress` of the old state. |
| Hub.LevelCircleClass | src/components/LevelHub.jsx:76-81 | Completed if and only if the level is completed. Available if and only if it is not completed but open. Locked if and only if neither. |
| Hub.PathwayLineClass | src/components/LevelHub.jsx:83-86 | The completed variant if and only if the level is completed. |
| Hub.IsLevelAvailable | src/components/LevelHub.jsx:66-69 | Level 1 is always open. Any other level is open if and only if its predecessor appears in the completed list. |
| Hub.MemoryRoomMeansSixLevels | src/components/LevelHub.jsx:72-74 | With no level listed twice, the memory room is available if and only if six distinct levels are completed. |
| Hub.CompletingOpensNext | src/components/LevelHub.jsx:66-69 | Completing level n opens level n + 1, and never closes a level that was open. |
| Hub.CircleClassFacts | src/components/LevelHub.jsx:65-81 | A completed level is never locked. A locked level is not level 1 and its predecessor is not completed. On a fresh game only level 1 is available. |
| Hub.StepCharacter | src/components/LevelHub.jsx:209-228 | The character never goes above or left of the 40 px margin, and on a screen of at least 80 × 80 it stays within [40, W-40] × [40, H-40]. From an in-bounds position it moves at most 3 px per axis, and not at all on an axis with no key held. |
| Hub.LevelTargets | src/components/LevelHub.jsx:41-55 | Six targets, the i-th being level i + 1, laid out symmetrically about the vertical axis: 1 and 4 lie on it, 2 mirrors 6 and 3 mirrors 5. |
| Hub.MemoryRoomTargetAt | src/components/LevelHub.jsx:57-63 | The memory room is targeted at the centre of its 80 × 60 box, on the vertical axis and 0.3 H + 30 px down. |
| Hub.FindNearest | src/components/LevelHub.jsx:236-266 | None if and only if nothing lies within 80 px. The memory room if it is within reach and strictly closer than every level within reach. Otherwise the strictly closest level within reach, the earliest one on a tie. |
| Hub.OnKeyUp | src/components/LevelHub.jsx:140-155 | Enter starts the nearby level if and only if it is open, and opens the nearby memory room if and only if six levels are completed. Any other key does nothing. |
| Hub.MemoryRoomNeverOpens | src/components/LevelHub.jsx:71-74 | From a fresh game, under any sequence of app operations that completes only levels 1..5, the memory room is never available and Enter never opens it. |
| Hub.CompletingUnlocksNext | src/components/LevelHub.jsx:65-69 | After level n completes, Enter at level n + 1 starts it. |
| MemoryRoomScreen.LowerChar | src/components/MemoryRoomScreen.jsx:21 | Lower-casing maps A..Z to a..z and leaves every other character alone. |
| MemoryRoomScreen.ToLower | src/components/MemoryRoomScreen.jsx:21 | Same length, character by character `LowerChar`. |
| MemoryRoomScreen.LowersTo | src/components/MemoryRoomScreen.jsx:21 | Lower-casing gives an all-lower-case word if and only if each character is that word's letter in either case. |
| MemoryRoomScreen.AcceptedSpellings | src/components/MemoryRoomScreen.jsx:19-24 | The password is accepted if and only if the input spells "iloveyou" with any mix of letter cases. |
| MemoryRoomScreen.MemoryRoom.constructor | src/components/MemoryRoomScreen.jsx:15-17 | Empty input, locked, no error shown. |
| MemoryRoomScreen.MemoryRoom.TypePassword | src/components/MemoryRoomScreen.jsx:42 | Only the input changes. |
| MemoryRoomScreen.MemoryRoom.Submit | src/components/MemoryRoomScreen.jsx:19-28 | A correct password in any case authenticates and hides the error. A wrong one shows the error and clears the input, leaving the lock as it was. |
| MemoryRoomScreen.FindMemory | src/components/MemoryRoomScreen.jsx:73 | None if and only if no memory exists for the level. Otherwise the first memory recorded for that level. |
| MemoryRoomScreen.NatToString | src/components/MemoryRoomScreen.jsx:6-12 | A number prints to at least one character, and a single digit prints as that digit (the level numbers in default titles and paths). |
| MemoryRoomScreen.DefaultsAreTheLevelTable | src/components/MemoryRoomScreen.jsx:6-12 | The default memory of each level 1..5 is its table entry: "Level N Memory", a photo, at /photos/level_N_win.jpeg. |
| MemoryRoomScreen.Cards | src/components/MemoryRoomScreen.jsx:71-73 | Exactly five cards for levels 1..5 in order. Each shows the level's unlocked memory if there is one, otherwise the level's default photo. |
| MemoryRoomScreen.CardFor | src/components/MemoryRoomScreen.jsx:73 | With a memory for the level, the card holds the first memory recorded for it (`find`). Without one, the card is the level's default. |
| MemoryRoomScreen.Preview | src/components/MemoryRoomScreen.jsx:108 | Photos get the fixed caption. Otherwise the content is shown, or "Memory from Level N" when the content is empty. |
| MemoryRoomScreen.CardShowsUnlockedMemory | src/components/MemoryRoomScreen.jsx:73 | With one memory per level, as the app keeps it, a card shows exactly the memory unlocked for its level. |
| MemoryRoomScreen.FreshGameShowsDefaults | src/components/MemoryRoomScreen.jsx:6-12 | On a fresh game every card shows its default photo. |
| Geometry.OverlapsSymmetric | src/components/Level1_Platformer.jsx:363-368 | The collision test does not depend on argument order. |
| Geometry.OverlapsMeansSpansMeet | src/components/Level1_Platformer.jsx:363-368 | For rectangles of positive size the collision test holds if and only if their x spans and their y spans overlap as open intervals. |
| Geometry.TouchingEdgesDoNotOverlap | src/components/Level5_BossFight.jsx:159-161 | Rectangles that only share an edge do not collide. |
| Geometry.OverlapWitness | src/components/Level4_StarCollect.jsx:201-206 | Overlapping rectangles of positive size share an interior point. |
| Platformer.CameraX | src/components/Level1_Platformer.jsx:370-376 | The camera lies in [0, LEVEL_WIDTH - SCREEN_WIDTH]. Between those bounds it centres the player. |
| Platformer.StepInvincibility | src/components/Level1_Platformer.jsx:390-396 | An invincible player's time drops by one, and reaching <= 0 clears invincibility and zeroes the time. A vulnerable player is untouched. |
| Platformer.InvincibilityLasts | src/components/Level1_Platformer.jsx:390-396 | From t >= 1 frames of invincibility, after k ticks the player is still invincible with t - k left if k < t, and vulnerable with 0 otherwise. |
| Platformer.StaysVulnerable | src/components/Level1_Platformer.jsx:390-396 | Ticks never make a vulnerable player invincible. |
| Platformer.ApplyInput | src/components/Level1_Platformer.jsx:403-419 | Left sets vx = -5, right (without left) sets vx = 5, otherwise vx decays by 0.8. A jump (vy = -12, airborne) happens exactly when a jump key is held while grounded. |
| Platformer.Integrate | src/components/Level1_Platformer.jsx:439-441 | Gravity adds 0.5 to vy, then the position moves by the new velocity. |
| Platformer.ResolveOne | src/components/Level1_Platformer.jsx:446-459 | No overlap changes nothing. Landing snaps the feet to the platform top, stops the fall and grounds the player. A head bump snaps below the platform. Otherwise only x is pushed out. vx never changes. |
| Platformer.ResolveOneSeparates | src/components/Level1_Platformer.jsx:446-459 | After a landing, a head bump or a sideways push the player no longer overlaps that platform. |
| Platformer.ResolvePlatforms | src/components/Level1_Platformer.jsx:443-460 | The platform loop computes `ResolveAll`, its recursive specification. |
| Platformer.ResolveKeepsVelocityX | src/components/Level1_Platformer.jsx:443-460 | Platform collisions never change vx. |
| Platformer.RestingStaysPut | src/components/Level1_Platformer.jsx:443-460 | A body with vy = 0 keeps its y, its zero vy and its grounded flag through the platform loop. |
| Platformer.GroundedRestsOnPlatform | src/components/Level1_Platformer.jsx:444-453 | A player who ends the loop grounded has vy = 0 and stands exactly on the top of some platform. |
| Platformer.ClampToLevel | src/components/Level1_Platformer.jsx:462-464 | x is kept within [0, LEVEL_WIDTH - 50], and a position already inside is unchanged. |
| Platformer.Move | src/components/Level1_Platformer.jsx:398-464 | Input, physics, platforms and bounds in order. The result lies in the level, and if grounded it stands on a platform. |
| Platformer.ActivateCheckpoints | src/components/Level1_Platformer.jsx:479-488 | Each unactivated checkpoint the player touches becomes activated, and the others are unchanged. The anchor moves to (cp.x + 10, cp.y - 20) of the last one activated (`LastActivation`), and stays put when none is. |
| Platformer.LastActivation | src/components/Level1_Platformer.jsx:479-488 | -1 if and only if the player newly activates no checkpoint. Otherwise the last checkpoint newly activated. |
| Platformer.Deactivated | src/components/Level1_Platformer.jsx:761 | Retry clears every checkpoint's flag and nothing else. |
| Platformer.Untouched | src/components/Level1_Platformer.jsx:511-518 | Exactly the hearts the player does not touch remain. |
| Platformer.HeartsAccounted | src/components/Level1_Platformer.jsx:511-522 | Remaining hearts plus collected hearts equal the hearts before. |
| Platformer.CollectHearts | src/components/Level1_Platformer.jsx:511-522 | The heart filter keeps the untouched hearts and counts the touched ones, and the two add up. |
| Platformer.HazardHit | src/components/Level1_Platformer.jsx:540-556 | The hazard loop reports a hit if and only if the player overlaps some hazard. |
| Platformer.MoveAndFall | src/components/Level1_Platformer.jsx:386-477 | The shield counts down, the body moves by `Stepped`, and the player falls if and only if below the screen while unshielded. A fall respawns at the anchor with 120 frames of invincibility. A player who has not fallen lies in the level, and a grounded one stands on a platform. |
| Platformer.TouchAndHit | src/components/Level1_Platformer.jsx:479-556 | Checkpoints follow `Activated` and the anchor `AnchorAfter`. Exactly the untouched hearts remain, and remaining plus collected equal the hearts before. A hazard hits if and only if the player is unshielded and overlaps one, and a hit respawns the player with 120 frames of invincibility. |
| Platformer.Frame | src/components/Level1_Platformer.jsx:383-577 | A finished game is unchanged. For a running game the next record is stated in full. The player falls if and only if the moved body is below the screen while not shielded. A hazard hits if and only if the player is unshielded and overlaps one. A life is lost if and only if one of the two happens, and the player then respawns at the anchor with 120 frames of invincibility. Checkpoints follow `Activated` and the anchor `AnchorAfter`. Exactly the untouched hearts remain, and the count grows by the touched ones. The camera follows `CameraX`. Completion happens if and only if at least 20 hearts are collected and x > 0.9 · LEVEL_WIDTH. |
| Platformer.Game.constructor | src/components/Level1_Platformer.jsx:47-72 | The initial state record and the anchor at (100, H - 200). |
| Platformer.Game.InitializeLevel | src/components/Level1_Platformer.jsx:339-348 | Installs the level's platforms, hearts, hazards and checkpoints, starts the game, and zeroes the heart count. |
| Platformer.Game.Tick | src/components/Level1_Platformer.jsx:379-580 | The loop does nothing unless the game is running. On a running game the world, the anchor and the lives lost follow the frame outcome `Frame` states for the old world. Platforms and hazards are kept, and completion is reported if and only if the level becomes complete. |
| Platformer.Game.GameOverEffect | src/components/Level1_Platformer.jsx:815-819 | Out of lives while started and not won sets game over; nothing else changes. |
| Platformer.Game.Retry | src/components/Level1_Platformer.jsx:734-768 | The player returns to the start, vulnerable. The camera, heart count and game over are reset, checkpoints are deactivated, hearts are cleared until the level is re-initialised, and the anchor returns to the start. |
| Rhythm.LaneOfKey | src/components/Level2_MoulinRouge.jsx:109-110 | A, S, D and F play lanes 0..3; any other key is no lane. |
| Rhythm.Penalize | src/components/Level2_MoulinRouge.jsx:129-132 | A miss never takes the score below zero nor raises it. |
| Rhythm.PenalizeTimesClosedForm | src/components/Level2_MoulinRouge.jsx:227-236 | k misses in a row from h >= 0 leave max(0, h - 0.5k). |
| Rhythm.RemoveFirstHit | src/components/Level2_MoulinRouge.jsx:112-127 | No hit if and only if no beat of the lane is within 80 px of the hit zone. A hit removes exactly the first such beat and keeps the others in order. |
| Rhythm.FirstHit | src/components/Level2_MoulinRouge.jsx:115-127 | -1 if and only if no beat of the lane is within 80 px of the hit zone. Otherwise the first such beat. |
| Rhythm.HitKeepsValid | src/components/Level2_MoulinRouge.jsx:115-124 | Removing one beat and scoring a hit keeps the record valid while the game runs. |
| Rhythm.Press | src/components/Level2_MoulinRouge.jsx:112-133 | A hit removes exactly the first beat of the lane in the window and adds one hit. With no such beat only the miss penalty applies. |
| Rhythm.Pick | src/components/Level2_MoulinRouge.jsx:194-207 | `Math.floor(r · n)` for r in [0, 1) is an index in [0, n). |
| Rhythm.DoubleChance | src/components/Level2_MoulinRouge.jsx:183-186 | The double-note chance runs from 0.10 at the start to 0.30 when time is up, and stays within those bounds. |
| Rhythm.SecondLane | src/components/Level2_MoulinRouge.jsx:197-198 | The retry loop returns the first drawn lane different from the first lane. |
| Rhythm.OtherLane | src/components/Level2_MoulinRouge.jsx:197-198 | The lane the retry loop settles on differs from the first lane, and it is the first draw that does. |
| Rhythm.SpawnBeats | src/components/Level2_MoulinRouge.jsx:181-212 | One beat, or two when the draw is below the double chance. Every beat is in a lane and starts just above the screen. A double uses two distinct lanes, and adjacent ones when the pair draw is below 0.5. |
| Rhythm.MoveBeats | src/components/Level2_MoulinRouge.jsx:220-224 | Every beat falls by 400 · dt. |
| Rhythm.SurvivorsAreTheUnmissed | src/components/Level2_MoulinRouge.jsx:226-236 | The survivors are exactly the beats not past the miss line, and survivors plus misses equal the beats. |
| Rhythm.RemoveMissed | src/components/Level2_MoulinRouge.jsx:226-236 | The miss filter keeps the survivors and applies one penalty per missed beat. |
| Rhythm.CountDown | src/components/Level2_MoulinRouge.jsx:239-241 | The timer drops by one per second tick and never below 0. |
| Rhythm.Accumulate | src/components/Level2_MoulinRouge.jsx:158-172 | The accumulator fires if and only if it reaches the interval, and subtracts the interval rather than resetting. From [0, interval) with dt <= interval it stays in [0, interval). |
| Rhythm.AccumulatorConservesTime | src/components/Level2_MoulinRouge.jsx:158-172 | Over many frames, the remainder plus the fired intervals equal the start plus all the frame times. |
| Rhythm.CheckHit | src/components/Level2_MoulinRouge.jsx:102-135 | Game over or a key outside A/S/D/F gives back the record unchanged. Otherwise, with k the first beat of the key's lane within 80 px of the hit zone, a hit removes exactly beat k, keeps the others in order and adds one hit. With no such beat, only the miss penalty applies. The state stays valid. |
| Rhythm.Frame | src/components/Level2_MoulinRouge.jsx:174-265 | A finished game is unchanged. Otherwise the next record is stated in full. The `Spawned` notes join and everything falls. The beats are the survivors of the miss line, and hits lose half a point per missed beat. The beat total grows by the number spawned, and the timer follows `CountDown`. Completion latches at 75 hits. Game over is set if and only if time is up with fewer than 75 hits, and completion is scheduled if and only if time is up with 75. |
| Rhythm.Game.constructor | src/components/Level2_MoulinRouge.jsx:33-56 | The initial record with the accumulators at 0. |
| Rhythm.Game.KeyDown | src/components/Level2_MoulinRouge.jsx:60-64 | A key press runs the hit test, and the record becomes exactly what `CheckHit` states for the old record. The clocks are never touched. |
| Rhythm.Game.Tick | src/components/Level2_MoulinRouge.jsx:147-268 | The loop runs only while started and not over. The frame time in seconds feeds both accumulators. A beat spawns when the beat accumulator fires, and the timer ticks when the second accumulator fires. The record then follows the whole frame outcome `Frame` states. A scheduled completion has time up and 75 hits. |
| Rhythm.Game.Retry | src/components/Level2_MoulinRouge.jsx:356-375 | A fresh record with the clocks reset. |
| Puzzle.LayoutFor | src/components/Level3_PuzzleOfUs.jsx:3-10 | The board is min(0.8 H, 0.5 W), a tile is a fifth of it, and the board is centred. |
| Puzzle.LockedCount | src/components/Level3_PuzzleOfUs.jsx:318 | The number of locked tiles is at most the number of tiles. |
| Puzzle.LockedCountMonotone | src/components/Level3_PuzzleOfUs.jsx:318 | Locking more tiles never lowers the count, and all locked means the count is the length. |
| Puzzle.GenerateTiles | src/components/Level3_PuzzleOfUs.jsx:70-91 | The nested loop yields 25 tiles, tile i having id i, column i mod 5, row i div 5, unlocked. |
| Puzzle.GeneratedTilesFillGrid | src/components/Level3_PuzzleOfUs.jsx:73-91 | Generated ids are unique and none is locked. Every grid cell holds a tile, and no two tiles share a cell. |
| Puzzle.Scatter | src/components/Level3_PuzzleOfUs.jsx:50-66 | Scattering changes only a tile's position. |
| Puzzle.ScatteredOnBoard | src/components/Level3_PuzzleOfUs.jsx:61-64 | A tile that goes to neither workspace lands wholly on the board. |
| Puzzle.ScrambleTiles | src/components/Level3_PuzzleOfUs.jsx:50-66 | The scramble loop scatters every tile by its own draws. |
| Puzzle.Topmost | src/components/Level3_PuzzleOfUs.jsx:240-246 | -1 if and only if no unlocked tile contains the point, inclusive bounds. Otherwise the last such tile. |
| Puzzle.TopmostAt | src/components/Level3_PuzzleOfUs.jsx:240-246 | The reverse search computes `Topmost`. |
| Puzzle.WithoutId | src/components/Level3_PuzzleOfUs.jsx:250 | Exactly the tiles with another id remain. |
| Puzzle.WithoutIdRemovesOne | src/components/Level3_PuzzleOfUs.jsx:250 | With unique ids, filtering out tile k's id removes exactly tile k and keeps the order. |
| Puzzle.RaiseFacts | src/components/Level3_PuzzleOfUs.jsx:248-252 | Raising a picked tile moves it to the end and keeps the others in order. The result is a permutation with unique ids and the same locked count. |
| Puzzle.PickUpKeepsInvariants | src/components/Level3_PuzzleOfUs.jsx:248-252 | Picking up an unlocked tile keeps the ids distinct and the locked count, and leaves the dragged tile unlocked. |
| Puzzle.MoveTile | src/components/Level3_PuzzleOfUs.jsx:275-284 | Only the tile with the given id moves. |
| Puzzle.LockTile | src/components/Level3_PuzzleOfUs.jsx:305-315 | Only the tile with the given id is placed and locked. |
| Puzzle.IndexOfId | src/components/Level3_PuzzleOfUs.jsx:290 | The first tile with the id, or -1 when there is none. |
| Puzzle.Completed | src/components/Level3_PuzzleOfUs.jsx:535-540 | Every tile is placed on its target and locked. |
| Puzzle.Game.constructor | src/components/Level3_PuzzleOfUs.jsx:37-45 | No tiles, nothing dragged, count 0, not started. |
| Puzzle.Game.GeneratePlaceholderTiles | src/components/Level3_PuzzleOfUs.jsx:69-96 | 25 scattered tiles with unique ids, none locked, and the game started. |
| Puzzle.Game.MouseDown | src/components/Level3_PuzzleOfUs.jsx:235-265 | When started and an unlocked tile is under the mouse, the topmost one is raised and dragged with its grab offset. Otherwise nothing changes. The locked count and the count invariant are kept. |
| Puzzle.Game.MouseMove | src/components/Level3_PuzzleOfUs.jsx:267-285 | Only the dragged tile moves, and locked tiles never move. |
| Puzzle.Game.MouseUp | src/components/Level3_PuzzleOfUs.jsx:287-333 | The drag ends. A dragged id missing from the tiles changes nothing else. A tile within the snap threshold of its target is placed there and locked, and the count is recomputed. Otherwise the tiles stay. Locked tiles stay locked and unmoved, the count never decreases, and the grab offset is kept. |
| Puzzle.Game.WinEffect | src/components/Level3_PuzzleOfUs.jsx:346-370 | Completion is scheduled if and only if 25 tiles are locked and the level was not yet completed. Completion latches. |
| Puzzle.Game.DebugComplete | src/components/Level3_PuzzleOfUs.jsx:534-548 | Every tile is placed and locked, and the count is 25. |
| Puzzle.WinMeansAllLocked | src/components/Level3_PuzzleOfUs.jsx:318-348 | With 25 tiles, a count of 25 means every tile is locked, and conversely. |
| Puzzle.AllLockedIff | src/components/Level3_PuzzleOfUs.jsx:318 | The locked count equals the length if and only if every tile is locked. |
| StarCollect.FrameSeconds | src/components/Level4_StarCollect.jsx:247-249 | dt is the elapsed time in seconds, capped at 0.1. |
| StarCollect.Progress | src/components/Level4_StarCollect.jsx:288 | progress = min(spawned / 25, 1) is in [0, 1] and is 1 once all are spawned. |
| StarCollect.FallSpeed | src/components/Level4_StarCollect.jsx:289 | The fall speed is in [3, 10]: 3 at the start and 10 once all are spawned. |
| StarCollect.ObstacleInterval | src/components/Level4_StarCollect.jsx:290-291 | The obstacle interval is in [0.25, 3.0]: 3.0 at the start and 0.25 at the end. |
| StarCollect.DifficultyRamps | src/components/Level4_StarCollect.jsx:288-291 | More stars spawned never slows the fall or lengthens the obstacle interval. |
| StarCollect.NextStarInterval | src/components/Level4_StarCollect.jsx:264 | The next star interval lies in [1.5, 2.5). |
| StarCollect.SpawnX | src/components/Level4_StarCollect.jsx:299-312 | A spawn column keeps the item on screen. |
| StarCollect.SpawnObstacle | src/components/Level4_StarCollect.jsx:311-330 | An obstacle is added if and only if stars remain to spawn or fall and no star within 50 px sideways is above y = 150. |
| StarCollect.MovePlayer | src/components/Level4_StarCollect.jsx:335-340 | The player stays in [0, W - 80]. A single held direction moves by 700 · dt, clamped, and no key leaves x alone. |
| StarCollect.Fall | src/components/Level4_StarCollect.jsx:342-344 | Each item falls by speed · 60 · dt. |
| StarCollect.Missed | src/components/Level4_StarCollect.jsx:349-367 | Exactly the items not touching the player box remain. |
| StarCollect.CatchAccounted | src/components/Level4_StarCollect.jsx:349-367 | Caught plus missed equal the items. |
| StarCollect.CatchItems | src/components/Level4_StarCollect.jsx:349-367 | The collision filter keeps the missed items and counts the caught ones. |
| StarCollect.OnScreen | src/components/Level4_StarCollect.jsx:370-371 | Exactly the items above H + 100 remain. |
| StarCollect.Advance | src/components/Level4_StarCollect.jsx:285-371 | Spawned stars and safe obstacles join. Each caught star adds one to the score and the caught count, and each obstacle hit takes one point off. Survivors above the cull line remain. The player stays on screen, at most 25 stars are spawned, and the score never exceeds the stars caught. |
| StarCollect.Frame | src/components/Level4_StarCollect.jsx:273-397 | A finished game is unchanged. Otherwise the next record is stated in full: spawned stars and safe obstacles join, the player moves, the items fall, caught stars score, obstacle hits cost a point and the culled items go. Once all 25 stars have spawned and none remain, exactly one of won (score >= 20) and lost is set, and completion is scheduled only on a win. |
| StarCollect.SurvivorsValid | src/components/Level4_StarCollect.jsx:342-371 | Items that are neither caught nor culled stay valid. |
| StarCollect.Game.constructor | src/components/Level4_StarCollect.jsx:36-44 | The initial record and refs. |
| StarCollect.Game.Tick | src/components/Level4_StarCollect.jsx:246-433 | No change once finished. The star timer fires at its interval with fewer than 25 spawned; it then resets, the counter rises by one and the next interval is drawn in [1.5, 2.5). The obstacle timer fires at the interval of the ramp. The record follows the whole frame outcome `Frame` states. |
| StarCollect.Game.Retry | src/components/Level4_StarCollect.jsx:567-605 | A fresh record with the timers and the counter reset; the spawn intervals keep their values. |
| BossFight.SpawnAttack | src/components/Level5_BossFight.jsx:195-231 | The attack is exactly `Attacks` of the draws. With a taxi or shockwave present, only pigeons spawn. A roll < 0.5 gives 1/2 taxis by phase, < 0.8 gives 2/3 pigeons, and otherwise one shockwave in the drawn lane with a 2 s warning. |
| BossFight.SpawnTaxis | src/components/Level5_BossFight.jsx:201-212 | The loop builds exactly `Taxis`: taxis in one lane, 250 px apart, off the drawn side, at 350/450 px/s by phase, each with a 1.5 s warning. |
| BossFight.NewPigeon | src/components/Level5_BossFight.jsx:217-220 | A pigeon starts on a column of the screen, above it, with vx in [-100, 100). |
| BossFight.SpawnPigeons | src/components/Level5_BossFight.jsx:214-221 | The loop builds exactly `Pigeons`: 2/3 pigeons by phase, each from its own draw. |
| BossFight.StepHazard | src/components/Level5_BossFight.jsx:322-341 | A taxi in its warning phase only counts down and never hits. A moving taxi hits if and only if it overlaps the player in the player's lane. A shockwave hits only when active in the player's lane and is dropped once spent. A pigeon hits if and only if it overlaps. |
| BossFight.HazardsAfter | src/components/Level5_BossFight.jsx:322-341 | The hazard filter never adds hazards. |
| BossFight.UpdateHazards | src/components/Level5_BossFight.jsx:315-341 | The loop computes `HazardsAfter`. A life is lost if and only if not invincible and some hazard hits, at most one per frame. A loss sets invincibility for 2 s. |
| BossFight.Countdown | src/components/Level5_BossFight.jsx:315-318 | A vulnerable player's timer is untouched. An invincible player's timer drops by dt, and invincibility lasts if and only if time is left. |
| BossFight.HitSurvivesSpawn | src/components/Level5_BossFight.jsx:301-341 | Appending newly spawned attacks never removes a hit among the hazards already present. |
| BossFight.Threaten | src/components/Level5_BossFight.jsx:300-341 | A due spawn resets the attack timer to 1.8/1.2 by phase and appends `Attacks` to the hazards. The hazards kept are exactly what the filter keeps of the old hazards plus the new attacks. A life is lost if and only if the counted-down shield is down and one of them hits, and the loss sets 2 s of invincibility. With no loss the counted-down shield stands. |
| BossFight.ProjectilesAfter | src/components/Level5_BossFight.jsx:307-313 | Survivors are never more than the shots and have not left the top margin. |
| BossFight.ShotsAccounted | src/components/Level5_BossFight.jsx:307-313 | Hits plus survivors never exceed the shots. |
| BossFight.UpdateProjectiles | src/components/Level5_BossFight.jsx:307-313 | The projectile filter keeps the survivors and counts the hits on the boss. |
| BossFight.MovePlayer | src/components/Level5_BossFight.jsx:275-276 | The player stays in [0, W - 50], and no key leaves x alone. |
| BossFight.NewLane | src/components/Level5_BossFight.jsx:277-278 | Down gives lane 1 (down wins over up), up alone gives lane 2, neither keeps the lane. |
| BossFight.BossStep | src/components/Level5_BossFight.jsx:289-291 | The boss moves by 150 · dir · dt. Its direction stays ±1 and flips if and only if it is at a 50 px margin. |
| BossFight.Frame | src/components/Level5_BossFight.jsx:263-359 | The next record is stated in full. Movement, lane, shot and boss step are `Maneuvered`. At health <= 0 the level completes at 0 health before anything else happens. Otherwise health drops by exactly the projectiles that hit, and a spawn resets the attack timer and appends `Attacks`. The hazards are exactly what the filter keeps of all of them. A life is lost if and only if the shield is down after the countdown and some hazard hits, and it sets 2 s of invincibility. |
| BossFight.FrameOutcomeFacts | src/components/Level5_BossFight.jsx:263-341 | The full frame outcome implies the summary facts: phase 2 latches, health drops by exactly the projectiles that hit, and at most one life is lost, never while invincibility lasts. |
| BossFight.Maneuver | src/components/Level5_BossFight.jsx:275-292 | The first half of a frame gives exactly `Maneuvered`: the player moves and changes lane by `MovePlayer` and `NewLane`, a due shot leaves from the player's centre, the boss paces by `BossStep`, and phase 2 starts at half health. The state stays valid. |
| BossFight.Skirmish | src/components/Level5_BossFight.jsx:300-341 | The spawn resets the attack timer to 1.8/1.2 by phase. Health drops by exactly the projectiles that hit the boss. The hazards are the filter's result over the old hazards plus any new `Attacks`. A life is lost if and only if the counted-down shield is down and one of them hits, restarting 2 s of invincibility. Only projectiles, health, hazards and invincibility change. |
| BossFight.Game.constructor | src/components/Level5_BossFight.jsx:77-82 | The initial fight: player mid-screen in lane 1, boss at full health. |
| BossFight.Game.Tick | src/components/Level5_BossFight.jsx:240-263 | No change once the fight is over. The frame time is the elapsed time capped. A shot is due if and only if Space is held and more than 200 ms have passed since the last shot, and an attack when the timer runs out. The record, the attack timer and the lives lost follow the whole frame outcome `Frame` states. |
| BossFight.Game.GameOverEffect | src/components/Level5_BossFight.jsx:135-139 | Out of lives while started and not won sets game over, and only that. |
| BossFight.Game.Retry | src/components/Level5_BossFight.jsx:169-179 | A fresh fight; the shot and attack timers keep their values. |

## Left out

- Canvas rendering, JSX markup, sprites and animation-frame cycling, particles, and flash and miss popups. These are presentation.
- Audio loading and playback, and the music fades (`fadeOutMusic`). These are browser I/O.
- `localStorage` loading and saving of the progress record (`src/App.jsx` lines 29-49 and 150). This is persistence I/O. Loading a saved record could bring in any record; the consistency lemmas cover games played from the initial record.
- `MemoryCapsule.jsx` and `GameShell.jsx` are not part of this model.
- `requestAnimationFrame`, `setInterval`, `setTimeout` and effect dependencies. One frame or event is one method call. A delayed `onComplete` is a returned flag, and `onLoseLife` is a returned count of lives lost.
- `Math.random`, `Date.now` and `performance.now` are parameters. Draws are reals in [0, 1), and timestamps only move forward.
- The level 1 layout (platform, heart, hazard and checkpoint coordinates) is a parameter of `InitializeLevel`, not the literal table.
- Platformer.Frame: the sine and cosine motion of floating hearts and moving blocks is not modelled. The hearts and hazards passed in are taken as already moved for this frame.
- Platformer.Frame: the bound 0 <= x <= LEVEL_WIDTH - 50 is stated only for ticks with no respawn. A respawn places the player at the anchor, which the source does not clamp.
- Platformer.Game.Retry: the 100 ms delayed `initializeLevel` is a separate call of `InitializeLevel`.
- StarCollect.Game.constructor: it requires a screen at least 80 px wide (the player's width), so that the centred start position is on screen.
- BossFight.Game.constructor: it requires a screen at least 100 px wide, so that the start position x = W/2 lies within [0, W - 50].
- BossFight.Game.Retry: it also requires a screen at least 100 px wide, for the same reason as the constructor.
- StarCollect.Game.Tick, BossFight.Game.Tick: once the level is won or lost, the animation loop is no longer scheduled, so a tick is a no-op. The level 5 updater itself has no such guard.
- BossFight.Skirmish: the source's filter callbacks change projectile and hazard objects in place, objects that the previous state also holds. The model gives each frame fresh values, so a repeated updater call (as React's development mode does) is not reproduced.
- StarCollect.Advance: the obstacle type (`RENT`, `HOMEWORK`, `TAXES`) is a cosmetic draw and is not modelled.
- Rhythm.Game.KeyDown: the held-key table that ignores auto-repeat is not modelled. Each call is a first press. The `R` and `H` shortcuts on the game-over screen are the `Retry` method and the app's `ReturnToHub`.
- Rhythm.Frame: the id and colour of each beat, the hit feedback list and the completion timestamp are not modelled.
- Puzzle: the image-based tile generation (`generateTiles` from a loaded picture) is not modelled. Only `generatePlaceholderTiles` is, and both produce the same 25-tile grid. The model tracks the tile list the mouse handlers read (`tilesRef`). The copy in the state record only mirrors it.
- Puzzle.Game.DebugComplete: called before any tiles exist, it sets the count to 25 with no tiles, and a later generation does not reset the count. The model keeps this as written, and the count invariant is stated only when the 25 tiles exist.
- MemoryRoomScreen.LowerChar: lower-casing is modelled for ASCII letters only. `toLowerCase` also maps other alphabets, which cannot spell "iloveyou".
- IEEE floating point: positions, speeds and times are exact reals, and `Math.sqrt` is replaced by comparing squared distances.
- The hub's sprite animation timer and falling leaves are cosmetic.
