# Dungeon Crawler main loop, modelled in Dafny

The source is a pygame dungeon crawler. Its `main.py` loads the assets, builds the first
level, then runs an asynchronous frame loop. Each frame does the following:

- shows the main menu, the pause menu or the inventory screen, or else plays a frame;
- in a playing frame with a living player, moves the player from the four held movement keys
  and updates the world, the enemies, the projectiles and the items;
- draws the HUD: five hearts, the level number and the score;
- on a level completion, loads the next level and carries health and score over;
- while the player is dead, plays the death sound once and runs the death fade;
- on restart, reloads the same level and carries only the score over;
- handles the keyboard events last.

This project models that orchestration and the small counters around it:

- `hearts.dfy` (module `Hearts`): the heart loop of `draw_info`. The method `DrawHearts`
  keeps the source's loop with its `half_heart_drawn` flag. It is proved equal to a
  closed-form reference bar, `HeartBar`. Lemmas give the full-heart threshold, the single
  half heart and the full/half/empty counts.
- `controls.dfy` (module `Controls`): keys and window events, the four held movement flags,
  and `MoveIntent`. That function turns the held keys into `(dx, dy)` with the source's
  override order: left beats right, and down beats up.
- `level_grid.dfy` (module `LevelGrid`): `reset_level`'s ROWS x COLS grid of -1 (an
  `array2`), and the nested loops that copy the parsed level rows into it.
- `effects.dfy` (module `Effects`): the `DamageText` and `ScreenFade` classes with their
  per-frame counters. Pure step functions and lemmas cover the text's 30-frame lifetime and
  the fade's completion.
- `game.dfy` (module `Game`): the main loop. The class `Session` holds `main()`'s variables:
  `level`, `start_game`, `pause_game`, `inventory_screen`, `start_intro`, the death-sound
  latch `p_d`, `run`, the movement flags, `level_complete` and the player. Its method
  `Frame` is proved equal to the pure function `FrameStep`. The HUD a frame reports is the
  intended one, built from `main()`'s own level and player. What `draw_info` draws as
  written is `HudAsWritten` (see Findings). The lemmas about `FrameStep`
  and `Run` cover these properties:
  - pause is tested before inventory, and the simulation runs only when it should;
  - level completion and restart carry over the right stats;
  - the death cue fires when a dead player's latch is armed, and at most once per life.

Things the frame needs from code outside `main.py` are inputs of each frame (`FrameInput`):
- the button clicks;
- the player after the simulation step (`stepped`);
- whether the move reached the exit;
- the player of a freshly built level, for level completion and for restart;
- the frame's window events.

The constants `SPEED` and `SCREEN_WIDTH` come from `constants.py`, which is not part of this
model. They are passed in as `Config`. `ROWS` and `COLS` are parameters of the grid methods.

Python's `%` with the positive divisor 20 agrees with Dafny's `%`, since both give a
non-negative remainder. So the heart logic carries over unchanged, negative health included.

## Model

| member | source | states |
|---|---|---|
| Hearts.DrawHearts | main.py:139-147 | The heart loop returns exactly the reference bar. Each slot is full if the health reaches its threshold. Otherwise only the first slot with a remainder is half, and the rest are empty. |
| Hearts.HeartBar | main.py:140-147 | The bar always has exactly five slots. |
| Hearts.FullHearts | main.py:140-141 | The number of full hearts is at most 5. For health 0..100 it is health / 20. |
| Hearts.FullIffThreshold | main.py:141-142 | Slot i (0..4) is full iff health >= 20*(i+1). |
| Hearts.HalfHeartOnlyAtRemainder | main.py:143-145 | A half heart needs health % 20 > 0, sits in a slot that is not full, and every slot before it is full. |
| Hearts.AtMostOneHalfHeart | main.py:139-145 | Two slots that both show a half heart are the same slot. |
| Hearts.HeartCounts | main.py:140-147 | For 0 <= health <= 100 there are health / 20 full hearts, and one half heart iff health % 20 > 0. Full + half + empty = 5. |
| Hearts.NegativeHealthShowsHalfHeart | main.py:143-147 | A negative health that is not a multiple of 20 shows a half heart in slot 0 and empty slots after it. |
| Controls.Press | main.py:455-463 | Key-down sets its movement key's flag and leaves the others. |
| Controls.Release | main.py:477-485 | Key-up clears its movement key's flag and leaves the others. |
| Controls.ReleaseUndoesPress | main.py:455-485 | Releasing a movement key that was not held before its press restores the flags. |
| Controls.MoveIntent | main.py:313-322 | dx and dy are each -speed, 0 or speed. Left gives -speed even with right held, right alone gives +speed, and neither gives 0. Down gives +speed even with up held, up alone gives -speed, and neither gives 0. |
| Controls.IntentSigns | main.py:313-322 | For a positive speed: dx < 0 iff left is held, dx > 0 iff right is held without left, dy > 0 iff down is held, and dy < 0 iff up is held without down. |
| LevelGrid.ResetLevel | main.py:162-168 | Returns a fresh grid of exactly rows x cols cells, all -1. |
| LevelGrid.FillGrid | main.py:242-244 | Every supplied cell [x][y] gets the parsed value. Every other cell keeps its value. |
| LevelGrid.LoadLevelData | main.py:393-399 | Reset then fill: each cell holds the parsed value where a row supplies it, and -1 elsewhere. |
| Effects.DamageText.constructor | main.py:178-183 | A new text has its counter at 0 and is not removed. |
| Effects.DamageText.Update | main.py:185-195 | x moves by the scroll's dx and y by its dy - 1. The counter goes up by one, and the text is removed once the counter exceeds 30. |
| Effects.TextStep | main.py:185-195 | One update of a damage text (with the frame's scroll) counts one frame. It removes the text iff it was removed already or the counter had reached 30. |
| Effects.TextStepAsWritten | main.py:185-195 | The update as written: the text only rises one pixel, whatever the camera did, and counts one frame. |
| Effects.TextUpdates | main.py:354 | The per-frame group updates: a removed text is no longer updated, and the counter grows by at most one per frame. |
| Effects.TextFollowsWorld | main.py:186-191 | Relative to a world point moving with the camera, a text keeps its x offset and rises one pixel per update. |
| Effects.TextLifetimeExact | main.py:192-195 | A text updated n times from counter 0 is removed iff n >= 31. Its counter is then min(n, 31): it survives 30 updates and goes on the 31st. |
| Effects.AsWrittenTextIgnoresScroll | main.py:187-188 | With the module-level scroll the source reads, a text does not follow a non-zero camera scroll. |
| Effects.ScreenFade.constructor | main.py:199-203 | A new fade has the given direction and speed and a counter of 0. |
| Effects.ScreenFade.Fade | main.py:205-219 | The counter grows by speed. The result is true iff the new counter >= SCREEN_WIDTH. |
| Effects.FadeResults | main.py:205-219 | k successive fade() calls give k results. The last says whether counter + k*speed reaches SCREEN_WIDTH. |
| Effects.FadeResultAt | main.py:205-219 | In a run of fade calls, call j reports completion iff counter + (j+1)*speed >= SCREEN_WIDTH. |
| Effects.FadeStaysComplete | main.py:216-219 | With speed >= 0, once a fade reports completion, every later call does too until the counter is reset. |
| Game.Rebind | main.py:404 | main()'s player becomes the new object. The module-level player object draw_info reads is unchanged. |
| Game.Resume | main.py:171-174 | Both overlay flags become false, and nothing else changes. |
| Game.OnEvent | main.py:455-485 | One event changes only the movement and overlay flags. The pause flag is set afterwards iff it was set before or the event is an Escape press. The inventory flag is set afterwards iff it was set before or the event is a c, b, i or p press. A movement flag is set afterwards iff the event presses its key, or the flag was set and the event does not release that key. |
| Game.ApplyEvents | main.py:451-485 | The events of a frame change only the movement and overlay flags. A set pause or inventory flag stays set. |
| Game.HeldUntilReleased | main.py:455-485 | A movement key pressed in a frame is still held after the frame's later events unless one of them releases it. |
| Game.ReleasedUntilPressed | main.py:477-485 | A movement key released in a frame is still released after the frame's later events unless one of them presses it again. |
| Game.PauseIffEscape | main.py:464-465 | After a frame's events, pause_game is set iff it was set before or some event is an Escape press. |
| Game.InventoryIffItsKeys | main.py:466-473 | After a frame's events, inventory_screen is set iff it was set before or some event is a c, b, i or p press. |
| Game.FlagOnlyChangesByItsKey | main.py:455-485 | A movement flag is unchanged by events that do not press or release its key. |
| Game.NoOverlayKeys | main.py:464-473 | Events with no Escape press and no c, b, i or p press leave both overlay flags unchanged. |
| Game.MenuFrame | main.py:289-296 | The main menu sets start_game only on the start click. The start click also sets start_intro and clears both overlay flags. The exit click is the only way it stops the loop. Without a click nothing changes. It changes no player, level or latch. |
| Game.PauseFrame | main.py:298-303 | The resume click clears both overlay flags. The pause menu stops the loop only on exit. Without a click nothing changes. It changes no player, level or latch. |
| Game.InventoryFrame | main.py:304-307 | The resume click clears both overlay flags. Without it nothing changes. The inventory screen changes no player, level, latch or run flag. |
| Game.Simulate | main.py:324-325 | After the step, the player is the stepped player and level_complete is what the move reported. Level, latch and intro are unchanged. |
| Game.LevelUp | main.py:390-406 | Level goes up by 1 and the intro restarts. The new level's player takes the old health and score. The latch is unchanged. |
| Game.IntroFade | main.py:416-419 | Without start_intro nothing changes. With it, the intro stops iff counter + 4 >= SCREEN_WIDTH. The counter is then 0, and otherwise it has grown by 4. Player, latch, level and run flag are unchanged. |
| Game.IntroRun | main.py:416-419 | The intro fade over k playing frames without a level completion or restart (pause and inventory frames do not advance it) changes neither the player nor the level, start_game or run. |
| Game.IntroStaysStopped | main.py:416-419 | Once start_intro is false, later intro fades (playing frames without a level completion or restart) change nothing. |
| Game.IntroLastsUntilFadeComplete | main.py:416-419 | A running intro with counter c is still running after k >= 1 playing frames without a level completion or restart iff c + 4k < SCREEN_WIDTH. Its counter is then c + 4k, and 0 once it has stopped. |
| Game.Restart | main.py:427-442 | Same level. The new player keeps only the old score. The latch is re-armed, the intro restarts and the death fade is reset. |
| Game.DeathScreen | main.py:422-442 | The death screen never changes the level or the run flag. The death cue fires iff the player is dead and p_d is armed. The level restarts iff the player is dead, the death fade completes this frame and restart is clicked. |
| Game.PlayFrame | main.py:308-448 | A playing frame reports a movement intent iff the player is alive, and that intent is MoveIntent of the held keys. It reports a level-up iff level_complete is set (the move's report when alive, the stale value otherwise), and the level grows by one exactly then. |
| Game.FrameStep | main.py:284-488 | Pause is shown iff the game is started and paused, even when the inventory flag is also set. The simulation runs iff the game is started, neither overlay is on and the player is alive. Menus change neither player nor level. start_game never reverts, and `run` becomes false only on an exit click. |
| Game.DeathLatch | main.py:422-441 | A death cue needs the armed latch and disarms it. Only a restart re-arms it. |
| Game.PlayFrameTriggers | main.py:389-442 | In a playing frame, with p the player after the step and any level-up: level-up iff level_complete; death cue iff p is dead and p_d is armed; restart iff p is dead, the death fade completes and restart is clicked. |
| Game.LevelCompleteCarriesStats | main.py:389-406 | On level complete, level becomes level + 1 and the new player has the stepped player's health and score. |
| Game.RestartKeepsLevelAndScore | main.py:426-442 | On restart the level is unchanged. The player is the new level's default with the old score, and p_d is true again. |
| Game.ResumeReturnsToPlay | main.py:298-311 | After resume from the pause menu, with no Escape, c, b, i or p press in that frame, the next frame simulates a living player. |
| Game.HudShowsSessionPlayer | main.py:386 | The corrected HUD: the HUD a playing frame reports is built from main()'s own level and the player after the step. draw_info as written reads the module-level values instead (HudAsWritten). |
| Game.HudAsWritten | main.py:134-152 | The HUD draw_info draws as written: always level 1. Until main() first rebinds its player, it shows that player's hearts and score. |
| Game.HudAsWrittenIsStale | main.py:134-152 | As written, after one level completion the HUD shows level 1 and the first player's old values. |
| Game.Run | main.py:283-284 | The while-run loop over a sequence of frame inputs. Each frame adds at most one death cue, restart and level-up. start_game never reverts, and a stopped loop stays stopped. |
| Game.DeathCueOncePerLife | main.py:422-441 | In any run of frames, death cues <= restarts + 1, so there is at most one per life. |
| Game.LevelCountsCompletions | main.py:389-392 | In any run of frames, the final level = the initial level + the number of level completions. |
| Game.Session.constructor | main.py:22-33 | The initial variables: level 1, not started, no overlay, latch armed, running, no key held, both fades at 0. |
| Game.Session.Frame | main.py:284-488 | One loop iteration changes the variables exactly as FrameStep does and reports what FrameStep reports. |
| Game.Session.MenuScreen | main.py:289-296 | The main-menu branch behaves as MenuFrame. |
| Game.Session.StartFromMenu | main.py:291-294 | The start button sets start_game and start_intro and clears both overlay flags, as Resume does. Nothing else changes. |
| Game.Session.PauseScreen | main.py:298-303 | The pause branch behaves as PauseFrame. |
| Game.Session.InventoryScreen | main.py:304-307 | The inventory branch behaves as InventoryFrame. |
| Game.Session.PlayScreen | main.py:308-448 | The playing branch behaves as PlayFrame. |
| Game.Session.SimulationStep | main.py:311-325 | Behaves as Simulate. |
| Game.Session.RebindPlayer | main.py:404 | main()'s player now names the new object. The module-level object keeps its last values. |
| Game.Session.CompleteLevel | main.py:390-406 | Behaves as LevelUp. |
| Game.Session.ShowIntro | main.py:416-419 | Behaves as IntroFade. |
| Game.Session.ShowDeathScreen | main.py:422-448 | Behaves as DeathScreen. |
| Game.Session.AdvanceDeathFade | main.py:426 | The death fade's counter grows by 4 and nothing else changes. The result is true iff the new counter reaches SCREEN_WIDTH. |
| Game.Session.DeathCue | main.py:422-425 | The latch loop emits the cue iff p_d was set, and leaves p_d false. |
| Game.Session.RestartLevel | main.py:427-442 | Behaves as Restart. |
| Game.Session.HandleEvents | main.py:451-485 | The event loop behaves as ApplyEvents. |
| Game.Session.HandleEvent | main.py:451-485 | One event behaves as OnEvent. |
| Game.Session.PressKey | main.py:455-473 | Key-down behaves as OnEvent(KeyDown). |
| Game.Session.ReleaseKey | main.py:477-485 | Key-up behaves as OnEvent(KeyUp). |

## Left out

- Drawing: screen fills, blits, `draw_text`, the buttons' images, the enemy health bars and
  the fade rectangles. These are presentation calls into pygame. A button click is an input
  of the frame.
- Audio: music and every sound. The one exception is the player's death sound, which is
  reported as the frame's `deathCue`.
- Asset loading and scaling (`scale_img`) and `splatter_gen`, which picks a random image.
- File reading and CSV parsing. The grid is filled from rows already parsed into integers.
- FillGrid: requires the parsed rows to fit the grid. The source fails with an index error
  on a larger level file, which ends the program, and that is not modelled.
- LoadLevelData: carries the same requirement as FillGrid, for the same reason.
- `player.move`, `enemy.ai`, `enemy.enemy_death`, `bow.update`, `arrow.update`, the fireball,
  item and splatter group updates, `world.process_data` and `world.update` are in files that
  are not part of this model. Their effect on the player, and the level-complete signal,
  arrive as frame inputs. The camera scroll they produce is not kept by the session.
- The sprite groups themselves: emptying them in `reset_level`, adding damage texts, arrows,
  fireballs, items and splatters, and removing dead enemies while iterating `enemy_list`.
  Only one damage text's own update is modelled.
- Line of sight (`Rect.clipline`). It only decides what is drawn.
- The asyncio loop, `clock.tick` and `asyncio.sleep(0)`. A frame is one call of `Frame`.
- The QUIT event. The source calls `pygame.quit()` (main.py:453) without leaving the loop,
  and the same iteration's `pygame.display.update()` then raises an error, which ends the
  program. The model does not capture that termination: the event changes nothing.
- `level_complete` before the first simulated frame. Python would raise an error if the
  first playing frame found the player dead. The model starts it as false.
- Effects.DamageText.constructor: takes the text rectangle's position directly. Placing the
  rectangle's centre needs the rendered text size.
- Effects.ScreenFade.Fade: `direction` and `colour` only choose rectangles to draw, so the
  model keeps only the counter.
- Level completion and restart take the new level's player as an input. On restart only the
  score is copied (main.py:439-442), so health is whatever the new level's player has.

## Findings

| source | as written | input that shows it | evidently intended | confidence | as-written member | corrected member |
|---|---|---|---|---|---|---|
| main.py:134-152 | `draw_info` reads the module-level `player` and `level`. `main()` receives both as parameters and rebinds only its own copies, so after the first level completion or restart the HUD shows level 1 and the first player's frozen health and score. | Complete level 1 with 60 health and score 3, then take damage to 20 health and score 5 on level 2. The HUD still shows level 1, three hearts and score 3. | The HUD shows the current level and the current player's health and score. | high, not executed | Game.HudAsWrittenIsStale | Game.HudShowsSessionPlayer |
| main.py:185-188 | `DamageText.update` reads the module-level `screen_scroll`. `main()` rebinds only its own `screen_scroll`, so the one `update` reads stays [0, 0] and damage numbers do not move with the camera. | A frame with camera scroll (5, 0). The text keeps its screen x, while the world moves 5 pixels. | The text shifts by the frame's scroll, like the splatter decals, which take the scroll as a parameter. | high, not executed | Effects.AsWrittenTextIgnoresScroll | Effects.TextFollowsWorld |
