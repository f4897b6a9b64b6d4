# Arcade game core, modelled in Dafny

This project models the browser arcade of the BGT Arcade repository. It covers the
client-side simulation of its games and two small pieces of React logic:

- **`GameEngine`** (`engine.dfy`, module `GameEngine`) is the base every game extends. It holds:
  - the input state: the `keys` set, the `touchControls` set and the alias table of the mobile actions;
  - the lifecycle flags `running` and `paused`, and whether an animation frame is requested;
  - the score, the level and the three UI callbacks;
  - the per-frame dispatch rule of `gameLoop`.
- **Crypto Collector** (`simplepacman.dfy`, module `SimplePacMan`) is a free-roaming Pac-Man with:
  - a spawn box in the middle of the board;
  - dots and four power pellets;
  - a level timer;
  - ghosts that wait three seconds before they move.
- **Bitcoin Defender** (`galaga.dfy`, module `Galaga`) is a Galaga-style shooter with:
  - a gun capped at ten bullets and a cooldown between shots;
  - three enemy classes with their own health;
  - enemy fire;
  - a race between the wave objective and the wave timer.
- **DeFi Runner** (`frogger.dfy`, module `Frogger`) is a Frogger with:
  - road and water lanes whose objects wrap around the screen;
  - log and turtle carry;
  - 50 px hops with a cooldown between them;
  - five goal zones at the top.
- **The grid-maze Pac-Man** (`pacman.dfy`, module `PacMan`) is an older game built on a maze of 20 px cells. Its `canMoveTo` rule governs every step of the player and the ghosts. The canvas host no longer constructs it.
- **The joystick** (`joystick.dfy`, module `Joystick`) has:
  - a dead zone;
  - a four-sector direction classifier;
  - change-only direction reports;
  - the knob clamp.
- **The canvas host** (`canvas.dfy`, module `GameCanvas`) has:
  - the canvas-size rule;
  - the slug-to-game dispatch;
  - the choice of mobile controls;
  - the mapping from the page's game state onto the engine lifecycle.

`common.dfy` (module `Common`) holds the shared vocabulary: positions, the `Unit` type of `Math.random()` results, `Option`, the pickup filter, and `Math.floor` and `Math.round`.

## How the model is built

**Inheritance.** Each game is a Dafny `class` that holds its engine as a `const engine: Engine` object, because the model has no inheritance. The game's methods update the engine's fields through field-level `modifies` frames such as `engine`score`.

**Callbacks.** Each of the three callbacks is a boolean that says whether the UI set it. Every call the engine makes is appended to `events`, a log of `ScoreChanged`, `LevelChanged` and `GameEnded` entries.

**Collections.** `keys` and the other unordered collections are `set`s. `touchControls` is a duplicate-free `seq` in insertion order, because Crypto Collector reads the first element of the JavaScript `Set`. Entity lists (dots, ghosts, bullets, enemies, lanes) are `seq` fields that the methods reassign, the way `filter`, `push` and `splice` do.

**Numbers.** Positions, speeds and timers that take fractions are `real`. Counters are `int`. A distance test `Math.sqrt(d) < r` is written as a comparison of the squared distance with `r * r`.

**Outside inputs.** `Math.random()`, `Date.now()` and `Math.sin` results are inputs:
- a random draw has type `Unit`, a real in [0, 1), and comes in oracle sequences or draw records;
- the clock is an `int` parameter;
- a sine is a real in [-1, 1].

**Loops.** Most loops of the source are `method`s with a `while` loop and its invariants. Each such method is proved equal to a specification function, and the properties are proved about that function:
- the nested maze and dot loops;
- the wall loops, the ghost `forEach` loops and the contact loops;
- the reverse splice loops of the shooter;
- the zone `forEach` of the runner.

A `filter` that only drops elements is a function assigned in one step, as in the shooter's bullet and explosion filters (Galaga.Advanced, Galaga.Faded).

**Deferred callbacks.** Each `setTimeout` callback that changes state is its own method, with a counter of pending calls:
- `Engine.ExpireMobileInput`;
- `SimplePacMan.Game.RespawnGhosts`;
- `Galaga.Game.RecentrePlayer`.

## Model

| member | source | states |
|---|---|---|
| GameCanvas.CanvasSize | client/src/components/GameCanvas.tsx:45-63 | Sizes are whole pixels. On desktop the size is always 800x600. On mobile the width always lies in [320, 380]. Below 320 available pixels it is 320x240. Otherwise the width is innerWidth - 20 or 380, whichever is smaller. The height is the least of half the screen height, 285 and three quarters of the width, rounded down to a whole pixel: it is at most each of the three and less than one more than the least of them. |
| GameCanvas.AttributeValue | client/src/components/GameCanvas.tsx:52-53 | Assigning a number to canvas.width or canvas.height: a value in [0, 2^31) is rounded down, a value at or below -1 leaves the attribute's default, and the result never exceeds 2^31 - 1. |
| GameCanvas.SizeCanvas | client/src/components/GameCanvas.tsx:45-63 | The step-by-step assignments to canvas.width and canvas.height, each through its integer conversion, leave exactly the size CanvasSize describes. A window narrower than 20 px gives a negative width, which falls back to the default 300 and then to 320x240. |
| GameCanvas.GameFor | client/src/components/GameCanvas.tsx:79-91 | `bitcoin-defender` builds the shooter and `defi-runner` builds the runner, each if and only if. Every other slug builds Crypto Collector. |
| GameCanvas.GetControlType | client/src/components/GameCanvas.tsx:162-178 | galaga controls iff the slug is `bitcoin-defender`; frogger controls iff it is `defi-runner`; pacman controls for every other slug. |
| GameCanvas.ControlsMatchGame | client/src/components/GameCanvas.tsx:162-178 | For every slug, the control layout belongs to the same game as the one that was built. |
| GameCanvas.MobileWidget | client/src/components/GameCanvas.tsx:233-247 | A mobile player with a built, playing game gets the joystick iff the slug is `crypto-collector`, and buttons otherwise. The buttons use the getControlType layout. Any other case gets no widget. |
| GameCanvas.ApplyGameState | client/src/components/GameCanvas.tsx:124-140 | playing starts the engine (running and not paused). paused pauses it. gameover stops it and cancels the pending frame. menu changes nothing. |
| Common.Round | client/src/games/SimplePacManGame.ts:187-188 | Math.round: the whole number within half a unit, ties going up (r - 1/2 < k <= r + 1/2). |
| Common.FarFrom | client/src/games/SimplePacManGame.ts:606-635 | What a pickup `filter` keeps: the points at least the radius away, in their order, never more than were there. Its membership is stated by Common.FilterMembers. |
| Common.NearCount | client/src/games/SimplePacManGame.ts:606-619 | A pickup filter removes exactly as many points as it keeps fewer: the removed count and the kept count add up to the list length. |
| Common.FilterMembers | client/src/games/SimplePacManGame.ts:606-619 | The filter keeps exactly the points at squared distance r2 or more, and it removes none exactly when every point is that far. |
| GameEngine.ScoreRun | client/src/games/GameEngine.ts:235-240 | k successive updateScore calls log k entries with a score handler set, and none without one. |
| GameEngine.ScoreRunEntries | client/src/games/GameEngine.ts:235-240 | With a handler set, the i-th of those calls reports base + (i + 1) * step, the exact value just stored. |
| GameEngine.PressedKeys | client/src/games/GameEngine.ts:171-199 | After a press, every alias key of the action is held and every other key is as it was. |
| GameEngine.ReleasedKeys | client/src/games/GameEngine.ts:203-231 | After a release, no alias key of the action is held, even one another action had added, and every other key is as it was. |
| GameEngine.SetAdd | client/src/games/GameEngine.ts:173 | Set.add on the touch controls: the element is present afterwards and no other element is added. A present element leaves the list as it was. A new element is appended at the end. |
| GameEngine.SetDelete | client/src/games/GameEngine.ts:205 | Set.delete on the touch controls: the element is gone afterwards, and exactly the other elements remain. Deleting an absent element changes nothing. |
| GameEngine.SetDeleteKeepsOrder | client/src/games/GameEngine.ts:205 | Deleting the member at position k of a duplicate-free list leaves the elements before and after it, in their order. |
| GameEngine.SetAddDistinct | client/src/games/GameEngine.ts:10 | Adding keeps the touch-control list free of duplicates, as a Set is. |
| GameEngine.SetDeleteDistinct | client/src/games/GameEngine.ts:10 | Deleting keeps the touch-control list free of duplicates. |
| GameEngine.Lower | client/src/games/GameEngine.ts:25 | An ASCII-only model of toLowerCase: it keeps the length, lifts each ASCII capital by 32 and leaves every other character alone. |
| GameEngine.KeyNames | client/src/games/GameEngine.ts:24-38 | The names a key-down stores: both " " and "spacebar" for the Space code, otherwise the lowercased key. GameEngine.Engine.KeyDown is proved to add exactly these. |
| GameEngine.Swipe | client/src/games/GameEngine.ts:86-109 | right iff the horizontal axis dominates and dx > 30; left iff it dominates and dx < -30. down iff the vertical axis dominates or ties and dy > 30; up likewise with dy < -30. Otherwise there is no swipe. |
| GameEngine.FramePhases | client/src/games/GameEngine.ts:300-324 | A frame updates iff running and not paused, and renders iff running. When it updates it updates first. Render is always the last phase, and a stopped loop does nothing. |
| GameEngine.Engine.constructor | client/src/games/GameEngine.ts:4-21 | A new engine is stopped, unpaused, with score 0, level 1, no keys, no touch controls, no callbacks and an empty log. |
| GameEngine.Engine.SetCallbacks | client/src/components/GameCanvas.tsx:94-96 | The host's three assignments set exactly the three callbacks. |
| GameEngine.Engine.KeyDown | client/src/games/GameEngine.ts:24-43 | Space adds both ' ' and 'spacebar'. Any other key adds its lowercase name. A `p` toggles paused and anything else leaves it. |
| GameEngine.Engine.KeyUp | client/src/games/GameEngine.ts:45-60 | A key-up deletes exactly the names the matching key-down stored. |
| GameEngine.Engine.Blur | client/src/games/GameEngine.ts:66 | Losing focus forgets every held key. |
| GameEngine.Engine.TouchEnd | client/src/games/GameEngine.ts:80-114 | With no recorded touch start, nothing changes. Otherwise the swipe's action adds its alias keys, and a touch too short to be a swipe adds none. |
| GameEngine.Engine.HandleMobileInput | client/src/games/GameEngine.ts:121-169 | A tap holds exactly the action's alias keys and changes no other key. |
| GameEngine.Engine.ExpireMobileInput | client/src/games/GameEngine.ts:129-167 | The tap's timeout deletes exactly the action's alias keys. |
| GameEngine.Engine.HandleMobilePress | client/src/games/GameEngine.ts:171-201 | A press records the action in the touch controls and holds its alias keys. Any other key is unchanged, so an unknown action changes only the touch controls. |
| GameEngine.Engine.HandleMobileRelease | client/src/games/GameEngine.ts:203-233 | A release forgets the action and deletes its alias keys unconditionally. |
| GameEngine.Engine.UpdateScore | client/src/games/GameEngine.ts:235-240 | The score becomes exactly the argument, with no clamping. A set handler is called with that same value. |
| GameEngine.Engine.UpdateLevel | client/src/games/GameEngine.ts:242-247 | The level becomes exactly the argument, and a set handler is called with it. |
| GameEngine.Engine.EndGame | client/src/games/GameEngine.ts:249-254 | The game stops, and a set handler receives the current score and level. |
| GameEngine.Engine.CallGameEnd | client/src/games/GalagaGame.ts:379 | A direct onGameEnd call logs the current score and level when a handler is set, and throws when none is. It does not stop the game. |
| GameEngine.Engine.Start | client/src/games/GameEngine.ts:256-274 | start leaves the engine running and not paused. |
| GameEngine.Engine.Pause | client/src/games/GameEngine.ts:276-278 | pause sets paused and changes nothing else. |
| GameEngine.Engine.Resume | client/src/games/GameEngine.ts:280-285 | resume clears paused and changes nothing else. |
| GameEngine.Engine.Stop | client/src/games/GameEngine.ts:287-292 | stop leaves the engine not running, with no frame requested. |
| GameEngine.Engine.Destroy | client/src/games/GameEngine.ts:294-298 | destroy is stop plus emptying both input sets. Its result does not depend on the prior state, so a second destroy changes nothing. |
| GameEngine.Engine.ScheduleNext | client/src/games/GameEngine.ts:300-324 | The loop requests the next frame exactly when it was running at the start of the frame, whether or not the update threw. |
| GameEngine.PressThenRelease | client/src/games/GameEngine.ts:171-231 | After a press and then a release of an action, none of its aliases is held, and the keys are the original keys minus those aliases. |
| GameEngine.ShootReleaseDropsUpSpace | client/src/games/GameEngine.ts:203-231 | Releasing `shoot` while `up` is still held drops ' ' and 'spacebar', and keeps 'arrowup' and 'w'. |
| GameEngine.UnknownActionKeepsKeys | client/src/games/GameEngine.ts:171-199 | An action outside the alias table leaves the keys unchanged on press and on release. |
| GameEngine.KeyDownThenUp | client/src/games/GameEngine.ts:24-60 | Space is stored under both space names. Every other key is stored under its lowercase name alone. A key-up after a key-down of the same key leaves none of its names held. |
| Joystick.CalculateDirection | client/src/components/JoystickController.tsx:18-37 | None iff the offset is shorter than 20 px. Otherwise right, down, left or up iff the offset lies in that sector of atan2, each written as its own if and only if. |
| Joystick.SectorsPartition | client/src/components/JoystickController.tsx:29-36 | Every non-zero offset lies in exactly one of the four sectors. |
| Joystick.AxisDirections | client/src/components/JoystickController.tsx:29-34 | Beyond the dead zone, a pure +dy gives down, -dy up, +dx right and -dx left (screen y grows downward). |
| Joystick.KnobPosition | client/src/components/JoystickController.tsx:39-56 | Within the maximum distance the knob follows the offset exactly. Beyond it, the knob lies at exactly size/2 - 20 from the centre. The 0/0 NaN case arises iff the offset is zero while the maximum is negative. |
| Joystick.ScaledLength | client/src/components/JoystickController.tsx:48-51 | The rescaled offset (dx/d*m, dy/d*m) has length m. |
| Joystick.Controller.constructor | client/src/components/JoystickController.tsx:11-12 | A new joystick is not dragging, holds no direction and has reported nothing. |
| Joystick.Controller.HandleStart | client/src/components/JoystickController.tsx:64-79 | A touch start starts dragging, takes the direction of the touch point and always reports it. |
| Joystick.Controller.HandleMove | client/src/components/JoystickController.tsx:81-97 | While dragging, a move reports a direction iff it differs from the current one. Otherwise it changes nothing. |
| Joystick.Controller.HandleEnd | client/src/components/JoystickController.tsx:99-105 | A touch end stops dragging, clears the direction and always reports that none is held. |
| Frogger.TerrainOf | client/src/games/FroggerGame.ts:121-131 | Road iff the lane index is 2-5, water iff it is 7-10, excluding the last lane in both cases. The first and last lanes are safe. |
| Frogger.Direction | client/src/games/FroggerGame.ts:137 | A lane runs at +1 or -1. |
| Frogger.AlternatingLanes | client/src/games/FroggerGame.ts:137 | Even lanes run rightward, and neighbouring lanes run in opposite directions. |
| Frogger.ObjectCount | client/src/games/FroggerGame.ts:160 | A lane gets 2 or 3 objects. |
| Frogger.Directed | client/src/games/FroggerGame.ts:173 | The object's speed has the sign of its lane's direction. |
| Frogger.RoadObject | client/src/games/FroggerGame.ts:163-176 | A road object sits on its lane's row, 35 high. It is a truck of width 80 iff its draw is below 0.3, and otherwise a car of width 50. Its speed has the lane's sign, and it is placed within 150 px after j * spacing. |
| Frogger.WaterObject | client/src/games/FroggerGame.ts:184-197 | A water object sits on its lane's row, 30 high. It is a log of width 140 iff its draw is below 0.8, and otherwise a turtle of width 100. Its speed has the lane's sign, and it is placed within 100 px after j * spacing. |
| Frogger.Lanes | client/src/games/FroggerGame.ts:117-148 | initializeLevel builds floor(height / 50) lanes. |
| Frogger.Goals | client/src/games/FroggerGame.ts:151-156 | There are five goal zones. |
| Frogger.NewLaneOk | client/src/games/FroggerGame.ts:119-147 | Lane i has y = H - 50(i + 1), the terrain and direction of its index, and the right objects: none on a safe lane, and on road or water 2-3 objects of its kinds, on its row, with its heading. |
| Frogger.LanesShape | client/src/games/FroggerGame.ts:110-157 | Every freshly built level has that layout in every lane. |
| Frogger.Wrapped | client/src/games/FroggerGame.ts:292-299 | An object changes only its x. Inside the band [-width, W + width] it moves by exactly its speed. A rightward object never ends past W + width, and a leftward one never before -width. |
| Frogger.DriftKeepsShape | client/src/games/FroggerGame.ts:290-301 | Moving the belts keeps every lane's layout and every object's row, heading, size and kind. |
| Frogger.Scaled | client/src/games/FroggerGame.ts:381-386 | The speed-scaling pass keeps the number of lanes. |
| Frogger.DriftAll | client/src/games/FroggerGame.ts:290-301 | The nested forEach computes exactly the drifted lanes. |
| Frogger.ScaleAll | client/src/games/FroggerGame.ts:381-386 | The nested forEach of nextLevel computes exactly the scaled lanes. |
| Frogger.FirstLane | client/src/games/FroggerGame.ts:304-307 | lanes.find returns -1 or a lane whose band holds the player's y. |
| Frogger.FirstLaneFinds | client/src/games/FroggerGame.ts:304-307 | No earlier lane holds y, and the result is -1 exactly when no lane does. |
| Frogger.FirstOverlap | client/src/games/FroggerGame.ts:313-318 | objects.find returns -1 or an object that overlaps the player. |
| Frogger.FirstOverlapFinds | client/src/games/FroggerGame.ts:313-318 | No earlier object overlaps, and the result is -1 exactly when none does. |
| Frogger.RowLookup | client/src/games/FroggerGame.ts:333-336 | A player standing on a lane's row finds exactly that lane. |
| Frogger.HomeIsSafe | client/src/games/FroggerGame.ts:114-124 | The start position lies in lane 0, which is safe and has no objects. |
| Frogger.HopPriority | client/src/games/FroggerGame.ts:237-254 | The hop keys are exactly the mobile aliases. The hop is up iff an up or space key is held, then down, then left, then right, each if and only if. |
| Frogger.Hopped | client/src/games/FroggerGame.ts:238-253 | A hop moves exactly 50 px along one axis, and up decreases y. Stay keeps the position. |
| Frogger.Clamped | client/src/games/FroggerGame.ts:257-265 | On a canvas at least 30 px each way, the player ends inside [0, W - 30] x [0, H - 30]. A coordinate already inside is kept. |
| Frogger.IdleCountdown | client/src/games/FroggerGame.ts:230-232 | After k frames without a hop, the cooldown is max(cd - k, 0). |
| Frogger.HopsApart | client/src/games/FroggerGame.ts:229-254 | For 34 frames after a hop the cooldown is still positive, and on the 35th it is 0, so hops are at least 35 frames apart. |
| Frogger.ReachOne | client/src/games/FroggerGame.ts:269-277 | One zone test keeps the number of zones. |
| Frogger.ReachFold | client/src/games/FroggerGame.ts:268-278 | The zone forEach keeps the number of zones. |
| Frogger.ZonesKept | client/src/games/FroggerGame.ts:268-278 | A completed zone is never cleared, and the completed count never drops. A check that completes no zone changes nothing. |
| Frogger.ZonesHome | client/src/games/FroggerGame.ts:268-278 | After the zone check, either the player and the timer are as they were, or the player is home with a full timer. |
| Frogger.Died | client/src/games/FroggerGame.ts:358-366 | A death costs one life and puts the player at (400, 550). The game keeps running iff lives remain, and then nothing is reported. |
| Frogger.Crashes | client/src/games/FroggerGame.ts:341-350 | The road forEach over the first k objects: each object that overlaps the player where they stand at that moment is a death. Its bounds are stated by Frogger.CrashBounds. |
| Frogger.Hazard | client/src/games/FroggerGame.ts:332-356 | checkCollisions on the player, lives and game: with no lane, nothing; on a road lane, the road pass; then a death if in the water. Frogger.Game.CheckCollisions is proved to change the state exactly as Hazard says. |
| Frogger.CrashBounds | client/src/games/FroggerGame.ts:341-350 | A road pass loses at most one life per object and never restarts the game. A death leaves the player at the respawn point. With no object touching the player, the pass changes nothing. |
| Frogger.Riding | client/src/games/FroggerGame.ts:303-325 | A player riding an object is out of the water and carried by its speed. Otherwise the position is unchanged. |
| Frogger.RidingFacts | client/src/games/FroggerGame.ts:303-325 | In the water iff the lane is water and no object overlaps. Riding iff the lane is water and some object overlaps, and the ridden object is such an object of that lane. |
| Frogger.AddObjects | client/src/games/FroggerGame.ts:159-199 | The push loop appends exactly the lane's road or water objects. |
| Frogger.BuildLanes | client/src/games/FroggerGame.ts:117-148 | The lane loop builds exactly the specified lanes. |
| Frogger.Game.constructor | client/src/games/FroggerGame.ts:27-59 | A new game is valid and paved. It has level 1, the player at home, five open zones, 8 lives, 3600 frames, no cooldown, no ride, score 0, and is not running. |
| Frogger.Game.InitializeLevel | client/src/games/FroggerGame.ts:110-157 | Fresh lanes for the current level, the five goal zones all open, the player at (W/2, H - 25) and a full timer. |
| Frogger.Game.Step | client/src/games/FroggerGame.ts:229-255 | The cooldown ticks down. A hop happens iff the ticked cooldown is 0 and a hop key is held, and then it moves the player and restarts the cooldown at 35. |
| Frogger.Game.Clamp | client/src/games/FroggerGame.ts:257-265 | The boundary check leaves the clamped position. |
| Frogger.Game.TryZone | client/src/games/FroggerGame.ts:269-277 | One zone either completes (one more zone, +200 and one report) or changes neither the score nor the log. |
| Frogger.Game.ReachZones | client/src/games/FroggerGame.ts:269-277 | Over the five zones, each newly completed zone adds exactly 200 and one score report. |
| Frogger.Game.Capture | client/src/games/FroggerGame.ts:267-278 | With the player at y = 100 or lower on the screen, nothing changes. Otherwise the player, zones and timer become exactly the five-zone fold ReachFold from the entry state. Completed zones stay completed, the score grows by exactly 200 per new zone, and the log gains one score report per new zone. The player is either unmoved or home with a full timer. |
| Frogger.Game.UpdatePlayer | client/src/games/FroggerGame.ts:224-284 | The cooldown follows the hop rule. The new player, zones and timer are exactly: the hop (if the cooldown allows one and a hop key is held), then the clamp, then the zone fold when the clamped player is above y = 100. Zones are kept. The score grows by exactly 200 per new zone, plus 10 iff a hop was made and the player ended higher up. With a handler set, the log gains one score report per new zone, then one more for that hop. |
| Frogger.Game.HopBonus | client/src/games/FroggerGame.ts:280-283 | The forward-hop award: when it applies, the score rises by exactly 10 and the log gains one report; otherwise neither changes. |
| Frogger.Game.UpdateObjects | client/src/games/FroggerGame.ts:286-326 | The lanes drift and stay paved. onWater, currentLog and the player are recomputed from scratch by the platform rule. |
| Frogger.Game.UpdateTimer | client/src/games/FroggerGame.ts:328-330 | The timer drops by exactly one frame. |
| Frogger.Game.PlayerDied | client/src/games/FroggerGame.ts:358-366 | The state changes exactly as Died describes. |
| Frogger.Game.CheckCollisions | client/src/games/FroggerGame.ts:332-356 | Lives never rise and a stopped game stays stopped. A lost life leaves the player at (400, 550). |
| Frogger.Game.NextLevel | client/src/games/FroggerGame.ts:368-391 | Level + 1 and +500 are reported in that order, and lives become min(lives + 1, 8). The new lanes are built for the new level from the draws alone, so the speed scaling is discarded. The zones are cleared, the player goes home and the timer is full. |
| Frogger.Game.CheckWin | client/src/games/FroggerGame.ts:207-210 | The level advances iff every zone is complete. Then the level rises by one and the score by 500, both reported, and lives become min(lives + 1, 8). The lanes are those of the new level, the zones are cleared, the player is home, the timer is full and nothing is ridden. Otherwise nothing changes. |
| Frogger.AllDoneCount | client/src/games/FroggerGame.ts:208 | `completedZones.every(zone => zone)` holds iff the count of completed zones equals the number of zones. |
| Frogger.Game.Settle | client/src/games/FroggerGame.ts:212-219 | Time up or no lives left ends the game with one GameEnded report. The timeout costs no life. |
| Frogger.Game.Advance | client/src/games/FroggerGame.ts:201-205 | The four steps keep the invariants, never raise lives, never lower the score and never restart the game. |
| Frogger.Game.Update | client/src/games/FroggerGame.ts:201-220 | The level rises by at most one, and it rises iff every zone is complete after the first four steps. Lives rise by at most the level-up life. When the level rose, the lanes are that level's, the player is home, the zones are cleared and the timer is full. The score never drops. Time up or no lives ends the game, and the end check adds exactly one game-end report (when a handler is set) to the log the win check left; otherwise it adds none. A stopped game stays stopped. |
| Frogger.Game.Frame | client/src/games/GameEngine.ts:300-324 | The next frame is requested iff the loop was running. A stopped or paused frame changes no game state. |
| Galaga.Health | client/src/games/GalagaGame.ts:142 | Health is 1-3: 3 iff boss, 1 iff basic. |
| Galaga.Points | client/src/games/GalagaGame.ts:143 | An enemy is worth 100 points per unit of full health, so 100/200/300. |
| Galaga.KindFor | client/src/games/GalagaGame.ts:126-136 | Wave 1 yields only basic enemies. Bosses need a wave above 3 and a draw of 0.85 or more. Fighters come from the 0.7 cut up to wave 3, and from [0.5, 0.85) after it. |
| Galaga.EnemySpeed | client/src/games/GalagaGame.ts:144 | 0.4 + 0.15 * wave from wave 1 on, and never below 0.5. |
| Galaga.NewEnemy | client/src/games/GalagaGame.ts:138-146 | A new enemy has the class of the type rule, full health and points, and the wave's speed. It starts in (-150, -50], with a shoot timer in [100, 350). |
| Galaga.InitialCount | client/src/games/GalagaGame.ts:117 | 5 + wave up to wave 3, and never more than 8. |
| Galaga.Recruits | client/src/games/GalagaGame.ts:116-122 | The initial count of new enemies, the i-th built from the i-th draw, all ranked. |
| Galaga.WaveObjective | client/src/games/GalagaGame.ts:111 | 6 + 2 * wave from wave 1 on, and never below 8. |
| Galaga.Reinforced | client/src/games/GalagaGame.ts:236-242 | One enemy is added iff the list is below the cap and the roll is below the spawn chance. Otherwise nothing is added. |
| Galaga.ShootChance | client/src/games/GalagaGame.ts:258-264 | A fire chance lies in (0, 0.25]. |
| Galaga.TurnEnemy | client/src/games/GalagaGame.ts:244-276 | An enemy sways and descends, or below the bottom respawns above the top at full health. Its timer counts down. At 0 it fires one hostile bullet at (x + 20, y + 40) iff its roll is below the chance, and reloads to [80, 260). |
| Galaga.TurnedAt | client/src/games/GalagaGame.ts:244-277 | The forEach gives every enemy its own turn. |
| Galaga.TurnedRanked | client/src/games/GalagaGame.ts:244-277 | The turns keep every enemy ranked: its class's points and health between 1 and its full health. |
| Galaga.FriendlyCount | client/src/games/GalagaGame.ts:389 | A failed wave keeps exactly the player bullets, all of them, and no enemy bullet. |
| Galaga.ShotsHostile | client/src/games/GalagaGame.ts:267-272 | No bullet an enemy fires is a player bullet. |
| Galaga.AdvancedMembers | client/src/games/GalagaGame.ts:225-232 | Every moved bullet inside (-10, H + 10) survives, and every survivor is such a moved bullet. |
| Galaga.AdvancedCount | client/src/games/GalagaGame.ts:225-232 | updateBullets never adds player bullets. |
| Galaga.FadedMembers | client/src/games/GalagaGame.ts:280-285 | An explosion survives iff its timer was above one, with that timer decremented. |
| Galaga.LastNear | client/src/games/GalagaGame.ts:293-299 | The enemy a bullet hits is the last one within 25 px, scanning from the end, or none. |
| Galaga.Strike | client/src/games/GalagaGame.ts:290-315 | One player bullet against the enemies: the last enemy within 25 px loses a health point and the bullet is spent; at zero health the enemy scores its points, counts as a kill, leaves a 20-frame explosion and goes. Its facts are stated by Galaga.StrikeFacts. |
| Galaga.Fire | client/src/games/GalagaGame.ts:287-317 | The player-bullet loop: the bullets from the last to the first, each against the enemies the later ones left. Its facts are stated by Galaga.FireCounts and Galaga.FireBullets, and Galaga.Game.ShootEnemies is proved to compute it. |
| Galaga.LastHit | client/src/games/GalagaGame.ts:321-327 | The bullet that hits the player is the last enemy bullet in the inclusive 30 px box, or none. |
| Galaga.StrikeFacts | client/src/games/GalagaGame.ts:290-315 | Only a player bullet is spent. A strike kills at most one enemy, and only by spending a bullet. Each kill removes one enemy and adds one explosion, and the score never drops. |
| Galaga.FireCounts | client/src/games/GalagaGame.ts:287-317 | Over the whole volley, the enemies lost are exactly the kills, each with an explosion. Kills and score never drop, and the enemies stay ranked. |
| Galaga.FireBullets | client/src/games/GalagaGame.ts:287-317 | The volley keeps every enemy bullet in order, and every kill spent a player bullet. |
| Galaga.Steered | client/src/games/GalagaGame.ts:194-205 | With no horizontal key held x is unchanged, and with no vertical key y is unchanged. |
| Galaga.SteeredInside | client/src/games/GalagaGame.ts:194-205 | The player stays 25 px inside the edges. It moves at most its speed horizontally and 70% of it vertically, and only in the held directions. |
| Galaga.PlayerShot | client/src/games/GalagaGame.ts:212-217 | The player's shot is a player bullet flying up. |
| Galaga.ShotCapped | client/src/games/GalagaGame.ts:207-222 | A shot adds exactly one player bullet iff the firing rule holds, so the count never goes above 10. |
| Galaga.TimeBonus | client/src/games/GalagaGame.ts:354 | The time bonus is a multiple of 50. With time left it is between 0 and 5 points per remaining frame, and 0 with fewer than ten frames left. |
| Galaga.Ramp | client/src/games/GalagaGame.ts:361-365 | Odd waves change nothing. Even waves never lower the bullet speed (capped at 3) or the player speed (capped at 6). The wave time is cut by 300 down to 2400. |
| Galaga.WaveTimeFloor | client/src/games/GalagaGame.ts:361-365 | After wave w the wave time is max(2400, 3600 - 300 * (w / 2)). |
| Galaga.WaveOutcome | client/src/games/GalagaGame.ts:170-176 | Advance iff the objective is met, even when the timer ran out too. Fail iff it is not met and the timer is out. |
| Galaga.FindTarget | client/src/games/GalagaGame.ts:293-316 | The reverse enemy loop finds exactly the last enemy near the bullet. |
| Galaga.FindHit | client/src/games/GalagaGame.ts:321-348 | The reverse bullet loop finds exactly the last hostile bullet in the player's box. |
| Galaga.TurnAll | client/src/games/GalagaGame.ts:244-277 | The forEach computes exactly the turned enemies and the shots, in enemy order. |
| Galaga.Move | client/src/games/GalagaGame.ts:194-205 | The four clamped moves compute exactly the steered position. |
| Galaga.Game.constructor | client/src/games/GalagaGame.ts:32-69 | A new game is valid. The player is at (400, 550) with 5 lives. Wave 1 has its 6 recruits, a 3600-frame timer and an objective of 8. The game is playing and not running. |
| Galaga.Game.InitializeWave | client/src/games/GalagaGame.ts:107-114 | The enemies are replaced by the wave's recruits. No kills, a full timer and the wave's objective. |
| Galaga.Game.SpawnInitialEnemies | client/src/games/GalagaGame.ts:116-122 | The initial count of enemies is appended after the existing ones. |
| Galaga.Game.SpawnRandomEnemy | client/src/games/GalagaGame.ts:124-149 | One new enemy is appended. |
| Galaga.Game.UpdatePlayer | client/src/games/GalagaGame.ts:185-223 | The player takes the steered move. A player bullet is pushed and the cooldown set to 15 iff shoot is held, the cooldown is 0 and fewer than 10 player bullets exist. The cap of 10 and the cooldown range are kept. |
| Galaga.Game.UpdateBullets | client/src/games/GalagaGame.ts:225-232 | The bullets are exactly the advanced ones. Player bullets never increase, and the invariant is kept. |
| Galaga.Game.UpdateEnemies | client/src/games/GalagaGame.ts:234-278 | The reinforcement happens first, then every enemy's turn. The shots are appended after the existing bullets, and the player-bullet count is unchanged. |
| Galaga.Game.UpdateExplosions | client/src/games/GalagaGame.ts:280-285 | The explosions are exactly the faded ones. |
| Galaga.Game.ShootEnemies | client/src/games/GalagaGame.ts:289-317 | The reverse splice loop leaves exactly the bullets, enemies, kills, explosions, score and log of the volley function. |
| Galaga.Game.Visit | client/src/games/GalagaGame.ts:293-316 | One bullet's turn changes the state exactly as one strike does. |
| Galaga.Game.CheckPlayerHit | client/src/games/GalagaGame.ts:319-349 | While invulnerable, or with no hostile bullet in the box, nothing changes. Otherwise the last such bullet is spliced out. The player loses a life, gets 90 frames of invulnerability, a 30-frame explosion at the player and one pending recentring. |
| Galaga.Game.CheckCollisions | client/src/games/GalagaGame.ts:287-350 | The enemies stay ranked and the score never drops. Enemies lost equal kills gained. At most one life is lost, and none while invulnerable. Exactly: the enemies, score, log and kills are those of the bullet volley Fire; then, unless invulnerable or no hostile bullet hits (LastHit), the hitting bullet is removed, one life is lost, 90 frames of invulnerability start, an explosion is added and one recentre is scheduled; otherwise nothing more changes. |
| Galaga.Game.RecentrePlayer | client/src/games/GalagaGame.ts:342-345 | The deferred callback puts the player at (W/2, H - 50). |
| Galaga.Game.NextWave | client/src/games/GalagaGame.ts:352-369 | The score grows by 500 * wave + the time bonus, reported before the new wave. The level equals wave + 1, and the difficulty ramps. The new wave's recruits come with no kills, a full timer and the new objective. |
| Galaga.Game.HandleTimerFailure | client/src/games/GalagaGame.ts:371-394 | One life less and 120 frames of invulnerability. At no lives, game over and a direct onGameEnd call, which throws iff no handler is set, with the wave left as it was. Otherwise a full timer, no kills, fresh recruits, and only the player bullets kept. |
| Galaga.Game.Countdown | client/src/games/GalagaGame.ts:158-167 | The cooldown and the invulnerability drop by one when positive, and the wave timer drops by one always. |
| Galaga.Game.Engage | client/src/games/GalagaGame.ts:152-156 | The movement steps and collision checks of update keep the invariant, lose at most one life and never lower the score. |
| Galaga.Game.Resolve | client/src/games/GalagaGame.ts:169-182 | The objective wins over the timer: advance, fail or continue as WaveOutcome says. No lives left ends the game unless the direct call threw. With a handler set, a failure at zero lives reports GameEnded twice. |
| Galaga.Game.Animate | client/src/games/GalagaGame.ts:152-155 | The movement steps keep the invariant. |
| Galaga.Game.Update | client/src/games/GalagaGame.ts:151-183 | The invariant is kept. The wave rises by at most one, and at most two lives are lost. The game runs on iff it ran and lives remain, except after a throw. A new wave resets the kills and the timer; on the same wave with time left, the timer drops by one and at most one life is lost. |
| Galaga.Game.Frame | client/src/games/GameEngine.ts:300-324 | The next frame is requested iff the loop was running. A stopped or paused frame changes no game state. |
| PacMan.CentreCell | client/src/games/PacManGame.ts:89-90 | The centre coordinate of a cell lies in that cell. |
| PacMan.GridCount | client/src/games/PacManGame.ts:57-58 | The row and column counts are the number of whole 20 px cells that fit, and 0 for a negative extent. |
| PacMan.MazeShape | client/src/games/PacManGame.ts:56-73 | The maze has floor(H/20) rows of floor(W/20) cells, each 0 or 1. |
| PacMan.MazeWalls | client/src/games/PacManGame.ts:56-81 | Every border cell except the player's is a wall. The player's cell is open whenever it lies in the grid. Every other cell is the border-or-draw rule. |
| PacMan.CanMoveInside | client/src/games/PacManGame.ts:147-156 | A point that may be entered lies inside the pixel box of the grid, and its cell is 0. |
| PacMan.StartOpen | client/src/games/PacManGame.ts:75-80 | On a generated maze, the start point may be entered iff its cell lies in the grid. |
| PacMan.RowDotsOpen | client/src/games/PacManGame.ts:85-94 | Every dot the inner loop lays is the centre of an open cell. |
| PacMan.GridDotsOpen | client/src/games/PacManGame.ts:83-94 | Every dot of the grid pass is the centre of an open cell. |
| PacMan.TopUpOpen | client/src/games/PacManGame.ts:96-112 | Every dot of the top-up fallback is the centre of an open cell. |
| PacMan.SpawnedDotsOpen | client/src/games/PacManGame.ts:83-113 | Every dot spawnDots lays is on an open cell centre. The top-up runs only below 20 dots, keeps the grid dots first and never exceeds 30. |
| PacMan.DotReachable | client/src/games/PacManGame.ts:147-156 | On a rectangular maze, every dot is a point canMoveTo accepts. |
| PacMan.Corners | client/src/games/PacManGame.ts:115-125 | There are four pellets, inside the box two cells in from the left and top and three in from the right and bottom. |
| PacMan.GhostCount | client/src/games/PacManGame.ts:134 | min(1 + floor(level / 2), 3): 1 on levels 0-1, 2 on levels 2-3, 3 from level 4. |
| PacMan.GhostCountGrows | client/src/games/PacManGame.ts:134 | A later level never has fewer ghosts. |
| PacMan.NewGhosts | client/src/games/PacManGame.ts:127-145 | That many ghosts, not vulnerable, each facing one of the four directions, placed 80 px apart around the centre. |
| PacMan.Facing | client/src/games/PacManGame.ts:182-197 | The facing is one of the four directions or the old one. |
| PacMan.PlayerMoveRule | client/src/games/PacManGame.ts:177-210 | The x move is kept iff its cell is open, then the y move iff its cell is open from the new x. Then x wraps. Each axis moves 0 or 2 px. |
| PacMan.PlayerStaysOpen | client/src/games/PacManGame.ts:199-209 | A player on an open cell of a maze no wider than the canvas stays on an open cell, and the wrap never fires. |
| PacMan.MovedGhosts | client/src/games/PacManGame.ts:213-247 | Every ghost takes its own step with its own draw. |
| PacMan.GhostMoveRule | client/src/games/PacManGame.ts:212-247 | A ghost keeps its vulnerability and a valid direction. It either stays (up to the wrap) or moves exactly its speed (0.5 vulnerable, 1.2 otherwise) into a cell canMoveTo accepts. |
| PacMan.MovedKeepsVulnerable | client/src/games/PacManGame.ts:212-247 | Moving never changes a ghost's vulnerability. |
| PacMan.WithVulnerable | client/src/games/PacManGame.ts:254 | The forEach sets every ghost's flag and changes nothing else. |
| PacMan.WithVulnerableTwice | client/src/games/PacManGame.ts:282 | Making the ghosts vulnerable twice, for two pellets in one frame, is the same as once. |
| PacMan.ContactLoop | client/src/games/PacManGame.ts:289-316 | The ghosts the loop has not reached yet are untouched. |
| PacMan.ContactLoopBounds | client/src/games/PacManGame.ts:289-316 | At most one life per ghost is lost, and none is gained. The score never drops and a stopped game stays stopped. A loss to zero lives stops the game. Each ghost is unchanged, or at the centre and not vulnerable. |
| PacMan.ContactLoopScoreless | client/src/games/PacManGame.ts:301-313 | Before anything is scored, ghosts that are not vulnerable are harmless: the loop changes nothing. |
| PacMan.ContactLoopFar | client/src/games/PacManGame.ts:289-294 | With every ghost 25 px or more away, nothing happens. |
| PacMan.BuildMaze | client/src/games/PacManGame.ts:56-81 | The nested loops build exactly the generated maze. |
| PacMan.LayDots | client/src/games/PacManGame.ts:84-94 | The nested dot loops lay exactly the grid dots. |
| PacMan.TopUp | client/src/games/PacManGame.ts:96-112 | The top-up loop adds exactly one attempt per count from the current one to 30, and runs only below 20 dots. |
| PacMan.SpawnGhostList | client/src/games/PacManGame.ts:136-144 | The ghost loop builds exactly the level's ghosts. |
| PacMan.MoveEach | client/src/games/PacManGame.ts:213-247 | The forEach moves exactly as MovedGhosts says. |
| PacMan.Game.constructor | client/src/games/PacManGame.ts:17-34 | A new game has level 1's layout, the player at (400, 300), 5 lives and no timer. It is stopped with score 0, and satisfies all invariants. |
| PacMan.Game.InitializeGame | client/src/games/PacManGame.ts:36-54 | The maze, dots, ghosts and pellets of the current level are laid, and the maze fits the canvas. |
| PacMan.Game.GenerateMaze | client/src/games/PacManGame.ts:56-81 | The maze is the generated maze around the player, and it fits the canvas. |
| PacMan.Game.SpawnDots | client/src/games/PacManGame.ts:83-113 | The dots are exactly the grid pass plus the top-up. |
| PacMan.Game.SpawnGhosts | client/src/games/PacManGame.ts:127-145 | The ghosts are the current level's. |
| PacMan.Game.SpawnPowerPellets | client/src/games/PacManGame.ts:115-125 | The pellets are the four corners. |
| PacMan.Game.Aim | client/src/games/PacManGame.ts:178-197 | The aimed point adds 2 px per held direction, so opposite keys cancel. The facing is the last held direction. |
| PacMan.CanMoveTo | client/src/games/PacManGame.ts:147-156 | A point may be entered iff its cell lies in the grid and is open. Its consequences are stated by PacMan.CanMoveInside. |
| PacMan.Stepped | client/src/games/PacManGame.ts:199-209 | updatePlayer's position: the x move if its cell is open, then the y move from the new x if its cell is open, then the wrap. Its facts are stated by PacMan.PlayerMoveRule and PacMan.PlayerStaysOpen. |
| PacMan.Steer | client/src/games/PacManGame.ts:218-227 | A ghost turns randomly one time in ten, otherwise chases the player (horizontal first) three times in ten, otherwise keeps its direction. |
| PacMan.MoveGhost | client/src/games/PacManGame.ts:213-245 | One ghost of updateGhosts: steer, step if the target cell is open or else turn randomly, then wrap. Its facts are stated by PacMan.GhostMoveRule. |
| PacMan.Game.UpdatePlayer | client/src/games/PacManGame.ts:177-210 | The player takes the wall-checked, wrapped step, and the facing follows the keys. |
| PacMan.Game.UpdateGhosts | client/src/games/PacManGame.ts:212-248 | The ghosts move as MovedGhosts says, and no ghost becomes vulnerable without the timer. |
| PacMan.Game.SetVulnerable | client/src/games/PacManGame.ts:254 | Every ghost's flag is set. |
| PacMan.Game.UpdateVulnerableTimer | client/src/games/PacManGame.ts:250-257 | A positive timer drops by one and clears every ghost's flag when it reaches 0. A zero timer stays 0. |
| PacMan.Game.CollectDots | client/src/games/PacManGame.ts:261-271 | Every dot within 15 px goes, each for +10 with its own report, and the farther dots stay in order. |
| PacMan.Game.CollectPellets | client/src/games/PacManGame.ts:274-286 | Every pellet within 20 px goes, each for +50 with its own report. Any pickup sets the timer to 300 and makes every ghost vulnerable. |
| PacMan.Game.EatPellet | client/src/games/PacManGame.ts:281-282 | One pellet's effect: the timer is 300 and every ghost is vulnerable. |
| PacMan.Game.MeetGhost | client/src/games/PacManGame.ts:290-315 | One ghost of the forEach changes the state exactly as TouchGhost says. |
| PacMan.TouchGhost | client/src/games/PacManGame.ts:289-316 | One ghost of the contact forEach: within 25 px a vulnerable ghost is eaten (+200, back to the centre); any other one costs a life once something was scored, and then ends the game or sends the player to the start. Its loop bounds are stated by PacMan.ContactLoopBounds. |
| PacMan.Pickup | client/src/games/PacManGame.ts:259-286 | The contact state after the two pickup filters: +10 per dot within 15 px, then +50 per pellet within 20 px, each reported. The score never drops, the log never shrinks, and nothing else changes. |
| PacMan.Game.Pickups | client/src/games/PacManGame.ts:259-286 | The dots and pellets within range are removed, exactly as FarFrom says. The contact state becomes exactly Pickup of the entry state. With at least one pellet eaten, the timer is 300 and every ghost is vulnerable; otherwise both are untouched. |
| PacMan.Game.TouchGhosts | client/src/games/PacManGame.ts:289-316 | The forEach changes the state exactly as ContactLoop says. At most one life per ghost is lost, the score never drops, and a loss to zero lives stops the game. |
| PacMan.Game.CheckCollisions | client/src/games/PacManGame.ts:259-317 | The invariants are kept, lives are bounded by the ghost count, and the score never drops. A loss to zero lives stops the game, and a stopped game stays stopped. Exactly: the dots and pellets are filtered as FarFrom says, the state after the pickups is Pickup of the entry state with the ghosts flagged iff a pellet was eaten, and the final contact state and ghosts are ContactLoop over all ghosts from there. |
| PacMan.Game.NextLevel | client/src/games/PacManGame.ts:319-330 | Level + 1 and +1000 are reported in that order. The player is back at (400, 300) facing nowhere, and a new layout is laid. |
| PacMan.Game.CheckWin | client/src/games/PacManGame.ts:168-171 | The level advances iff no dot is left and the score is positive. Otherwise nothing changes. |
| PacMan.Game.Update | client/src/games/PacManGame.ts:158-175 | A stopped game keeps its player, dots, lives, score and log. Lives are bounded by the ghost count. The score never drops and the level rises by at most one, and a level change resets the player and the layout. A loss to zero lives stops the game. |
| PacMan.Game.Frame | client/src/games/GameEngine.ts:300-324 | The next frame is requested iff the loop was running. A stopped or paused frame changes neither the player nor the lives nor the score. |
| SimplePacMan.MaxTimeFor | client/src/games/SimplePacManGame.ts:151 | The timer is max(60 - 5(level - 1), 20): 60 s on level 1, never below 20, and 20 from level 9 on. |
| SimplePacMan.GhostCount | client/src/games/SimplePacManGame.ts:242 | min(level + 1, 3): 2 on level 1 and 3 from level 2. |
| SimplePacMan.NewGhosts | client/src/games/SimplePacManGame.ts:239-282 | That many ghosts, each not vulnerable, in the box, with exitDelay 180 + 60i, a listed direction and its start corner. |
| SimplePacMan.RowWallsOnOutline | client/src/games/SimplePacManGame.ts:221-228 | Every wall of the first createWalls loop lies on the box outline. |
| SimplePacMan.ColumnWallsOnOutline | client/src/games/SimplePacManGame.ts:230-234 | Every wall of the second loop lies on the box outline. |
| SimplePacMan.IsWall | client/src/games/SimplePacManGame.ts:284-289 | isWall holds iff some wall is within 10 px on both axes. |
| SimplePacMan.SpawnBoxShape | client/src/games/SimplePacManGame.ts:209-237 | Every wall lies on the 60 px box outline. The middle of the top side is open (the ghosts' exit) and the middle of the bottom side is a wall. |
| SimplePacMan.IsInSpawnBox | client/src/games/SimplePacManGame.ts:291-297 | isInSpawnBox holds iff the point is strictly within 30 px of the unrounded centre on both axes. |
| SimplePacMan.StartCornersOutsideBox | client/src/games/SimplePacManGame.ts:252-278 | The ghosts' start corners lie outside the spawn box, unless both canvas sides are strictly between 420 and 540 px. |
| SimplePacMan.CanMoveInDirection | client/src/games/SimplePacManGame.ts:464-487 | canMoveInDirection: one grid step in the direction lands inside the inclusive playable area and not on a wall; an unknown direction tests the current point. How it differs from the ghost test is stated by SimplePacMan.CanMoveVersusGhostCell. |
| SimplePacMan.CanMoveVersusGhostCell | client/src/games/SimplePacManGame.ts:464-487 | canMoveInDirection and the ghost cell test differ exactly on the right and bottom edges. |
| SimplePacMan.OpenDirections | client/src/games/SimplePacManGame.ts:561-572 | The filter keeps exactly the directions whose grid step passes the ghost cell test. |
| SimplePacMan.Waiting | client/src/games/SimplePacManGame.ts:505 | The speed gate: a ghost waits while fewer than 150 / speed ms have passed since its last move; a zero speed waits for ever. |
| SimplePacMan.ChooseDirection | client/src/games/SimplePacManGame.ts:512-534 | The ghost AI: a ghost that is not vulnerable and within 200 px (Manhattan) chases on the larger axis with chance 0.4; a vulnerable one within 150 px flees with chance 0.6; otherwise it turns at random with chance 0.15 or keeps its direction. |
| SimplePacMan.Redirect | client/src/games/SimplePacManGame.ts:577-583 | The recalculation after a blocked step: only the new direction's axis is recomputed from the ghost, the other keeps the blocked target's value. |
| SimplePacMan.MoveGhost | client/src/games/SimplePacManGame.ts:503-593 | A ghost inside its speed gate is untouched, and otherwise it stamps the time. It either stays or moves onto a cell that passes the test, at most one grid step per axis. It keeps its other fields. |
| SimplePacMan.MovedGhosts | client/src/games/SimplePacManGame.ts:503-594 | Every ghost takes its own turn with its own draw. |
| SimplePacMan.GhostsStayOnOpenCells | client/src/games/SimplePacManGame.ts:587-593 | A ghost's position changes only to a point in [40, W - 40) x [40, H - 40) that is not within 10 px of a wall. |
| SimplePacMan.WithVulnerable | client/src/games/SimplePacManGame.ts:601 | The forEach sets every ghost's flag and changes nothing else. |
| SimplePacMan.WithVulnerableTwice | client/src/games/SimplePacManGame.ts:630 | Setting the flags twice is setting them once. |
| SimplePacMan.ChosenDirectionAsWritten | client/src/games/SimplePacManGame.ts:333-363 | With the key tests as written, the first touch control wins, a held up test gives up, and with no test firing the pending direction stays. |
| SimplePacMan.StoredNamesAreLowerCase | client/src/games/GameEngine.ts:24-38 | No key name the engine stores is "ArrowUp" or "W". |
| SimplePacMan.ArrowUpIgnoredAsWritten | client/src/games/SimplePacManGame.ts:333-355 | Holding the ArrowUp key stores "arrowup", and with the tests as written no direction is chosen. |
| SimplePacMan.ArrowUpSteersAsIntended | client/src/games/SimplePacManGame.ts:333-355 | With the corrected tests, the same key turns Pac-Man up. |
| SimplePacMan.LetterWSteersAsWritten | client/src/games/SimplePacManGame.ts:333 | W, with or without shift, is stored as 'w' and turns Pac-Man up even with the tests as written. |
| SimplePacMan.ChosenDirection | client/src/games/SimplePacManGame.ts:332-363 | The corrected choice, with the key names the engine stores; the game runs the choice as written. The first touch control overrides the keys. Otherwise a held up wins, and with nothing held the pending direction stays. |
| SimplePacMan.AppliedMove | client/src/games/SimplePacManGame.ts:376-443 | Each axis either stays or takes the one-pixel step, and an applied coordinate lies in [15, W - 15] (resp. H). |
| SimplePacMan.NoEntryFromAfar | client/src/games/SimplePacManGame.ts:409-435 | A move from 50 px or more off the centre on either axis never ends inside the spawn box. |
| SimplePacMan.Escape | client/src/games/SimplePacManGame.ts:445-455 | A moved player is kept. A stuck player within 35 px of the centre is pushed 5 px on both axes, and any other stays. |
| SimplePacMan.Snap | client/src/games/SimplePacManGame.ts:78-79 | The snapped coordinate is a multiple of 40 within 20 px of the original. |
| SimplePacMan.KeepDot | client/src/games/SimplePacManGame.ts:167-181 | A dot is laid outside the 35 px box around the floored centre and more than 80 px from the player's start. |
| SimplePacMan.DotColumnFacts | client/src/games/SimplePacManGame.ts:166-183 | Every dot of a column has that column's x, lies in the inner 60 px margin and passes the exclusion tests. |
| SimplePacMan.DotGridFacts | client/src/games/SimplePacManGame.ts:165-184 | Every dot of a new level lies in the 60 px margin. Each is outside the 35 px centre exclusion and more than 80 px from the player's start. |
| SimplePacMan.TouchGhost | client/src/games/SimplePacManGame.ts:639-691 | One ghost of the contact loop: within 20 px a vulnerable ghost is eaten (+200, back to the centre); any other costs a life and either ends the game or resets the player, the timer, the respawn count and the ghost delay. Its loop bounds are stated by SimplePacMan.ContactLoopBounds. |
| SimplePacMan.ContactLoop | client/src/games/SimplePacManGame.ts:639-691 | The ghosts the loop has not reached yet are untouched. |
| SimplePacMan.ContactLoopBounds | client/src/games/SimplePacManGame.ts:638-692 | At most one life per ghost is lost and none is gained. The score never drops and a stopped game stays stopped. Each ghost is unchanged, or at the centre and not vulnerable. |
| SimplePacMan.ContactLoopFar | client/src/games/SimplePacManGame.ts:640-644 | With every ghost 20 px or more away, nothing happens. |
| SimplePacMan.Respawned | client/src/games/SimplePacManGame.ts:666-683 | The deferred callback puts ghost i at its respawn corner and changes nothing else. |
| SimplePacMan.RespawnMatchesStart | client/src/games/SimplePacManGame.ts:666-683 | Each of the three possible ghosts respawns in its start corner. |
| SimplePacMan.SnapStart | client/src/games/SimplePacManGame.ts:186-188 | The snap of initializeGame keeps the player at (200, 200). |
| SimplePacMan.Step | client/src/games/SimplePacManGame.ts:376-455 | The movement is the gated step followed by the escape. |
| SimplePacMan.GatedMove | client/src/games/SimplePacManGame.ts:377-443 | The gated one-pixel step computes exactly AppliedMove. |
| SimplePacMan.MoveEach | client/src/games/SimplePacManGame.ts:503-594 | The forEach moves exactly as MovedGhosts says. |
| SimplePacMan.LayDots | client/src/games/SimplePacManGame.ts:162-184 | The nested loops lay exactly the dot grid. |
| SimplePacMan.LayColumn | client/src/games/SimplePacManGame.ts:166-183 | The inner loop lays exactly one column. |
| SimplePacMan.BuildRows | client/src/games/SimplePacManGame.ts:221-228 | The first wall loop builds exactly the top and bottom walls. |
| SimplePacMan.BuildSides | client/src/games/SimplePacManGame.ts:230-234 | The second wall loop appends exactly the side walls. |
| SimplePacMan.Game.constructor | client/src/games/SimplePacManGame.ts:84-119 | A new game has level 1's board, 5 lives, no vulnerability and no pending respawn. It is stopped, with score 0, an empty log and no input. |
| SimplePacMan.Game.InitializeGame | client/src/games/SimplePacManGame.ts:149-207 | Starting a level leaves the timer at MaxTimeFor(level) and the player at (200, 200) with both directions cleared. The walls, dots, pellets and ghosts are the level's, with a 180-frame ghost delay and the ghosts inactive. |
| SimplePacMan.Game.CreateBoard | client/src/games/SimplePacManGame.ts:159-199 | The walls, dots, four pellets and ghosts are exactly the level's. |
| SimplePacMan.Game.PlaceAtStart | client/src/games/SimplePacManGame.ts:186-188 | The player ends at (200, 200). |
| SimplePacMan.Game.CreateWalls | client/src/games/SimplePacManGame.ts:209-237 | The walls are exactly the spawn-box outline. |
| SimplePacMan.Game.CreateGhosts | client/src/games/SimplePacManGame.ts:239-282 | The ghosts are exactly the level's. |
| SimplePacMan.Game.UpdateTimer | client/src/games/SimplePacManGame.ts:326-329 | The timer drops by 1/60, never below 0. |
| SimplePacMan.Game.UpdatePlayer | client/src/games/SimplePacManGame.ts:331-462 | The direction chosen with the key tests as written, if any, becomes the current one, and the next one is cleared. With no direction the player stays; otherwise it takes the gated step and the escape. |
| SimplePacMan.Game.UpdateGhosts | client/src/games/SimplePacManGame.ts:489-595 | While the delay runs it only counts down and no ghost moves. After that the ghosts are active and every ghost takes its turn. |
| SimplePacMan.Game.SetVulnerable | client/src/games/SimplePacManGame.ts:601 | Every ghost's flag is set. |
| SimplePacMan.Game.UpdateVulnerableTimer | client/src/games/SimplePacManGame.ts:597-604 | A positive timer drops by one and clears every flag when it reaches 0. A zero timer stays 0. |
| SimplePacMan.Game.CollectDots | client/src/games/SimplePacManGame.ts:606-619 | Every dot strictly within 25 px goes, each for +10 and +1 s with its own report. The farther dots stay, in order. |
| SimplePacMan.Game.CollectPellets | client/src/games/SimplePacManGame.ts:621-635 | Every pellet within 25 px goes, each for +50 and +3 s with its own report. Any pickup sets the timer to 600 and makes every ghost vulnerable. |
| SimplePacMan.Game.EatPellet | client/src/games/SimplePacManGame.ts:628-630 | One pellet's effect: the timer is 600, +3 s, and every ghost vulnerable. |
| SimplePacMan.Pickup | client/src/games/SimplePacManGame.ts:606-635 | The contact state after the two pickup filters: every dot within 25 px adds 10 points and a second, then every pellet within 25 px adds 50 points and three seconds, each reported. The score and timer never drop, the log never shrinks, and nothing else changes. |
| SimplePacMan.Game.Pickups | client/src/games/SimplePacManGame.ts:606-635 | The dots and pellets within 25 px are removed, exactly as FarFrom says. The contact state becomes exactly Pickup of the entry state. With at least one pellet eaten, the timer is 600 and every ghost is vulnerable; otherwise both are untouched. |
| SimplePacMan.Game.MeetGhost | client/src/games/SimplePacManGame.ts:639-691 | One ghost of the forEach changes the state exactly as TouchGhost says. |
| SimplePacMan.Game.TouchGhosts | client/src/games/SimplePacManGame.ts:637-692 | Contact is checked only while the ghosts are active, exactly as ContactLoop says. At most one life per ghost is lost, and the score never drops. |
| SimplePacMan.Game.CheckCollisions | client/src/games/SimplePacManGame.ts:606-693 | At most one life per ghost is lost, the score never drops, and the vulnerability timer is either untouched or 600. Exactly: the dots and pellets are filtered as FarFrom says, the state after the pickups is Pickup of the entry state with the ghosts flagged iff a pellet was eaten, and then, while the ghosts are active, the contact state and ghosts become ContactLoop over all ghosts; otherwise they stay as the pickups left them. |
| SimplePacMan.Game.RespawnGhosts | client/src/games/SimplePacManGame.ts:666-683 | The deferred callback moves every ghost to its respawn corner. |
| SimplePacMan.Game.Settle | client/src/games/SimplePacManGame.ts:308-323 | With no dots left, 1000 + 10 * timeLeft is scored, level + 1 is reported, and a fresh level is built. Otherwise an expired timer costs a life: at no lives left, endGame with the board as it was; else a fresh level. Otherwise nothing changes. |
| SimplePacMan.Game.Animate | client/src/games/SimplePacManGame.ts:302-305 | The movement half of update: the timer drops by one frame and stops at zero. |
| SimplePacMan.Game.Update | client/src/games/SimplePacManGame.ts:299-324 | A stopped game changes nothing, and otherwise lives never rise. |
| SimplePacMan.Game.Frame | client/src/games/GameEngine.ts:300-324 | The next frame is requested iff the loop was running. A stopped or paused frame changes no game state. |
| SimplePacMan.Game.HandleMobilePress | client/src/games/SimplePacManGame.ts:23-49 | The override records the action, and a direction action becomes the next direction at once. The engine's alias keys are not touched. |
| SimplePacMan.Game.HandleMobileRelease | client/src/games/SimplePacManGame.ts:51-55 | The override forgets the action only. |
| SimplePacMan.Game.SetDirection | client/src/games/SimplePacManGame.ts:58-62 | The next direction is taken as given. |
| SimplePacMan.Game.SetPlayerDirection | client/src/games/SimplePacManGame.ts:65-83 | null changes nothing. A direction becomes both the current and the next one, and the player snaps to the 40 px grid. |

## Left out

- Rendering. Every `render()` body, `forceRender`, the canvas test patterns and the error banner are left out; they only draw pixels. `FramePhases` records that a render happens.
- Audio. `MusicEngine.ts`, every `playSound` and the AudioContext setup are Web Audio calls with no effect on game state.
- Console logging is left out.
- `preventDefault` calls on key and touch events are left out.
- Browser plumbing is left out: `addEventListener`, `requestAnimationFrame` and `cancelAnimationFrame`. `frameRequested` records only whether a frame is pending.
- `resume()` restarting `gameLoop` is left out. When a loop is already running, this starts a second chain of frames; that is scheduling, not game state.
- `destroy` never removes the document listeners. The model has no listeners to remove.
- GameEngine.Engine.TouchEnd takes its touch-start coordinates as parameters. The touchstart handler (`GameEngine.ts:73-78`) and the reset of its coordinates after each swipe are not modelled.
- Each `setTimeout` callback is a separate method that the caller invokes later; the 100 ms delays are not modelled.
- The auto-start timeout of the canvas host (`GameCanvas.tsx:101-106`) is not modelled.
- The host's `isMobile` check (`GameCanvas.tsx:27-37`) becomes a parameter.
- The host's `handleMobilePress`, `handleMobileRelease` and `handleJoystickDirection` only forward to the game. The game methods they call are modelled, the forwarding itself is not.
- Randomness is modelled as draw inputs of type `Unit`; its distribution is not modelled.
- `Date.now()` is the `now` parameter of the Crypto Collector ghost step.
- `Math.sin` is the per-enemy `sine` of the shooter.
- Floating point is not modelled. Positions, speeds and timers are exact reals, so `timeLeft -= 1/60` and the speed products are exact.
- Joystick.CalculateDirection uses exact sector comparisons on dx and dy in place of `atan2`. IEEE rounding at the 45-degree boundaries is not modelled.
- Joystick.KnobPosition takes the square root as a parameter `dist` with `dist * dist == dx * dx + dy * dy`.
- Colours and purely visual fields are left out: ghost and object colours, and Galaga's `paused` game state, which nothing sets.
- `try`/`catch` fallbacks around code that cannot throw in the model are left out:
  - the fallback dot list of the grid Pac-Man's `initializeGame` (`PacManGame.ts:45-53`);
  - the constructors' second `initializeGame` or `initializeWave` after an audio failure;
  - the catch in the Pac-Man `update`.
- The one call that throws is modelled: the shooter's direct `onGameEnd` call with no handler. Its result `thrown` models the catch in the engine loop.
- `SimplePacManGame.destroy` also stops the music. Only the engine half, GameEngine.Engine.Destroy, is modelled.
- SimplePacMan.Game.Update states only that a stopped game is untouched and that lives never rise. The step-by-step facts are stated by its parts: UpdateTimer, UpdatePlayer, UpdateGhosts, UpdateVulnerableTimer (through Animate), CheckCollisions and Settle.
- Galaga.Game.Animate states only that the invariant is kept. The effect of each step is stated by UpdatePlayer, UpdateBullets, UpdateEnemies and UpdateExplosions.
- Galaga.Game.Engage states only the invariant and the life and score bounds. The exact effects are stated by its parts: Animate's steps and CheckCollisions.
- Galaga.Game.Update states the wave, timer, lives and running state, not the exact new enemies, bullets or explosions. Those are stated by its parts: Engage's steps, Countdown and Resolve.
- PacMan.Game.Update states bounds, the level-up reset and the stopped case, not the exact new player, ghosts or dots. Those are stated by its parts: UpdatePlayer, UpdateGhosts, UpdateVulnerableTimer, CheckCollisions and CheckWin.
- SimplePacMan.Game.Animate states only the new timer. The movement facts are stated by its parts: UpdateTimer, UpdatePlayer, UpdateGhosts and UpdateVulnerableTimer.
- Frogger.Game.Update does not state the exact new lanes, player or score after its first four steps. Those are stated by Advance's parts: UpdatePlayer, UpdateObjects, CheckCollisions and UpdateTimer.
- Frogger.Game.Advance states only bounds. The exact effects are stated by UpdatePlayer, UpdateObjects, CheckCollisions and UpdateTimer.
- PacMan.Game.Frame states bounds and the stopped case only. The exact effects are stated by Update.
- The Crypto Collector ghosts' `inBox` and `exitDelay` fields are set but never read by the code. The model keeps them without further rules.
- GameEngine.Engine.Start and GameCanvas.ApplyGameState: `start()` also clears and fills the canvas, renders once and runs the first `gameLoop()` at once, which is one update and a frame request. These are not part of the method; the first frame is the caller's next frame call.
- GameEngine.Lower and GameEngine.Engine.KeyDown: only ASCII capitals are folded. JavaScript's full Unicode case mapping (such as 'Ä' to 'ä', or 'İ' becoming two code units) is not modelled, since no game tests a non-ASCII key.
- The server, the UI pages and the other components are not part of this model, and neither are the tests, e2e specs and config files.

## Notes on the code as written

Each of these is modelled as the code behaves.

- **Frogger timeout.** The timeout ends the game without costing a life (`FroggerGame.ts:213-215`). `tests/games/FroggerGame.test.js:306-313` expects a life lost; the model follows the code (Frogger.Game.Settle).
- **Frogger level-up speed.** `nextLevel` scales every object's speed and then rebuilds the lanes, so the scaling has no effect (Frogger.Game.NextLevel).
- **Galaga timer failure at zero lives.** It calls `onGameEnd` directly, and `update` then calls `endGame`. With a handler set, the game end is reported twice. With no handler, the direct call throws, the rest of `update` is skipped and the game keeps running (Galaga.Game.Resolve).
- **Grid Pac-Man after a fatal collision.** The win check runs even when a collision has just ended the game. It also runs before anything else is reset, and `vulnerableTimer` survives a new level.
- **Repeated game-end reports.** In both Pac-Man games the contact `forEach` keeps going after `endGame`, so a second harmful ghost in the same frame reports the game end again. Frogger does the same. `playerDied` calls `endGame` whenever no life is left, once for each road object that overlaps the player (`FroggerGame.ts:342-349`, `363-364`). `update` then calls `endGame` once more, because lives are at zero or below (`FroggerGame.ts:216-218`). So a fatal crash is reported at least twice (Frogger.Died, Frogger.Crashes, Frogger.Game.Settle).
- **Crypto Collector start corners.** The ghosts are flagged `inBox` but start in the corners, outside the spawn box (SimplePacMan.StartCornersOutsideBox).

## Findings

| source | as written | input that shows it | evidently intended | confidence | as-written member | corrected member |
|---|---|---|---|---|---|---|
| client/src/games/SimplePacManGame.ts:333-336 | The keyboard tests look for 'ArrowUp', 'W', 'ArrowDown', 'S', 'ArrowLeft', 'A', 'ArrowRight' and 'D'. The engine stores every key as `e.key.toLowerCase()`, so those names are never in `keys`, and the arrow keys never steer Crypto Collector. The lowercase tests 'w', 's', 'a' and 'd' do match, so the letter keys steer (SimplePacMan.LetterWSteersAsWritten). The game in the model runs the tests as written. | The ArrowUp key held alone (keys = {"arrowup"}, no touch control, no pending direction): no test fires and no direction is chosen. | The lowercase names the engine stores ('arrowup', 'w', ...), as the other games test them. | not executed | SimplePacMan.ArrowUpIgnoredAsWritten | SimplePacMan.ArrowUpSteersAsIntended |
