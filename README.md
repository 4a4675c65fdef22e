# The Outrider's rule engine, in Dafny

A model of the game rules of an idle space-travel browser game, with proofs
about them. The player crafts solar sails (paid in photons) and photon
batteries (paid in lightyears) into an eight-slot inventory. Every mining
cycle the sails wear down and move the ship a number of lightyears. Each map
has a countdown timer, and the game is won at 1,000,000 lightyears. Random
encounters offer a gamble on lightyears. For 250,000 lightyears and all of
its sails, the ship can enter a black hole and play an obstacle-dodging
minigame that pays its score in lightyears.

The project has one module per source file:

| module | file | source |
|---|---|---|
| `Wrappers` | wrappers.dfy | the `Option` type used for the source's `null` results |
| `Utils` | utils.dfy | js/utils.js: `randRange`, `clamp`, `formatTime`, `formatMapTime`, `getShipMapPosition` |
| `Config` | config.dfy | js/config.js: the constant tables and the encounter catalog |
| `State` | state.dfy | js/state.js: classes `GameState`, `MarketState`, `UIState` |
| `Encounters` | encounters.dfy | js/encounters.js: the cumulative walk and class `EncounterManager` |
| `Minigame` | minigame.dfy | js/minigame.js: class `WarpMinigame` |
| `Orchestration` | orchestration.dfy | js/main.js: the rule handlers of class `Game` |

The model keeps the source's form:

- Objects whose fields change are classes with `modifies` frames. The
  inventory is an `array<Slot>`. The log, the obstacle list and the ship
  trail are `seq` fields that the methods reassign.
- Loops stay loops: `getSlotCounts`, `processMiningCycle`, `destroyAllSails`,
  the obstacle move and filter, and `checkCollisions`. Each loop is proved
  against a reference function on the slot or obstacle sequence
  (`CountSails`, `Power`, `RateSum`, `Mined`, `BreakLines`, `KeepBatteries`,
  `Moved`, `OnScreen`, `Collides`).
- Pure helpers are functions. Their meaning is stated either in their own
  `ensures` or in lemmas next to them.

Randomness is passed in. Every `Math.random()` is a `real` parameter in
[0, 1). `RandRange(min, max, draw)` is `floor(draw * (max - min + 1)) + min`.
The mining cycle takes one draw per slot (used only by a sail whose
durability is positive) and one draw for the distance factor.

Clock readings (`Date.now()`, `toLocaleTimeString()`) and item ids
(`crypto.randomUUID()`) are also parameters. Sounds, screens and rendering
are dropped. The lines the rules send to the UI log are returned as
`LogLine` values, each a `Message` plus its severity. In the source these
lines end up in `GameState.log` through `addLog` in js/ui.js, which is not
part of this model; `GameState.AddLogEntry` models the storage itself.

Notes on the code:

- The second market value is `ethPrice`. It moves by ±100 per step within
  [3000, 5000].
- Sun intensity moves by ±2500 per step.
- Encounter payouts are not capped at WIN_DISTANCE. The bound
  `lightyears ≤ 1,000,000` holds only for `addLightyears`.
  `Encounters.PayoutNotCapped` exhibits a balance above it.
- `start()` runs the first `gameLoop` frame at once, and a frame's score is
  taken before the frame counter advances. So after n frames the score is
  167 × (n − 1).
- The map advance is `claimWarrant`. js/main.js:290 instead calls
  `gameState.advanceToNextMap()`, and js/main.js:313 schedules
  `marketState.updateSubstrateConductivity()`. Neither method exists, so
  neither is modelled. As a consequence the ETH price never moves in the
  running game.

## Model

| member | source | states |
|---|---|---|
| Utils.RandRange | js/utils.js:18 | for min ≤ max and a draw in [0, 1), the result is an integer in [min, max] |
| Utils.RandRangeReaches | js/utils.js:18 | every integer of [min, max] is produced by some draw in [0, 1) |
| Utils.Clamp | js/utils.js:58 | the result lies in [min, max]; equals the value when it is inside; min below, max above |
| Utils.ClampIdempotent | js/utils.js:58 | clamping a clamped value changes nothing |
| Utils.FormatTime | js/utils.js:25 | "READY" for seconds ≤ 0, otherwise decimal digits without a leading zero that read back as the seconds, followed by "s" |
| Utils.TwoDigits | js/utils.js:36 | `String(n).padStart(2, '0')` is all digits, at least 2 long, exactly 2 below 100, with no leading zero when longer than 2, and reads back as n |
| Utils.FormatMapTime | js/utils.js:32-37 | negative input gives "00:00"; the text is minutes (no leading zero when more than two digits), ':' and two digits of seconds below 60, with 60·minutes + seconds = max(0, input) |
| Utils.MapTimeRoundTrip | js/utils.js:32-37 | for 0 ≤ s < 6000 the text is exactly "MM:SS" with SS < 60 and 60·MM + SS = s, so the text is determined by s |
| Utils.ShipMapPosition | js/utils.js:46-49 | ratio 0 gives the start node, ratio 1 the end node |
| Utils.ShipStaysOnSegment | js/utils.js:46-49 | for a ratio in [0, 1] both coordinates lie between the two nodes' coordinates |
| Config.MapDurationsWellFormed | js/config.js:18 | five positive map durations, the first 330 seconds |
| Config.MarketBoundsWellFormed | js/config.js:34-44 | both market values start inside their bounds |
| Config.ThemesNameTracks | js/config.js:46-75 | there are five tracks and every theme's track index is valid |
| Config.EncountersWellFormed | js/config.js:77-258 | 15 entries, each with 1000 ≤ minLy ≤ maxLy, stake 10,000, 0 < winChance < 1 and a positive trigger chance |
| Config.EncounterChancesTotal | js/config.js:77-258 | the trigger chances add up to 0.53 |
| State.PrependCapped | js/state.js:210 | the new entry comes first, the old entries follow in order, at most 50 are kept |
| State.FirstEmpty | js/state.js:75-77 | -1 exactly when every slot is occupied; otherwise the index of an empty slot with all lower slots occupied |
| State.KeepBatteriesSpec | js/state.js:120-124 | every battery stays in its slot and every other slot is emptied; no sails remain, the battery count is kept, and destroying twice equals destroying once |
| State.DestroyingSailsKeepsIncome | js/state.js:120-124 | after destroying the sails the propulsion power is 0 and the batteries' photon rate is unchanged |
| State.DecaySlotSpec | js/state.js:156-170 | a sail with positive durability loses 1 to 3 and one without loses nothing; it is broken afterwards iff it was broken or its durability is ≤ 0; id and power are kept; batteries and empty slots are unchanged |
| State.BrokenReportedOnce | js/state.js:163-168 | a sail that broke in one cycle is marked broken and is not reported again in the next cycle |
| State.MiningKeepsDurabilityRange | js/state.js:156-160 | sail durabilities within [-2, 100] stay within [-2, 100] through a cycle |
| State.WorkingSailGivesPower | js/state.js:161-162 | when every sail has power ≥ 1, a working sail makes the total power ≥ 1 |
| State.AllBrokenWarningUnreachable | js/state.js:176-183 | when every sail has power ≥ 1, the "all functioning sails have broken down" warning never fires |
| State.MiningGainRange | js/state.js:173 | the distance of a cycle lies between 5 and 15 times the total power |
| State.GameState.constructor | js/state.js:12-14 | a new game is in the initial state below |
| State.GameState.Reset | js/state.js:16-30 | 250 photons, no lightyears or warrants, not won, eight empty slots, one "ready for warp" log entry, the given clock readings, and the first map's 330-second timer |
| State.GameState.AddPhotons | js/state.js:36-38 | photons increase by exactly the amount |
| State.GameState.RemovePhotons | js/state.js:40-46 | succeeds iff photons ≥ amount, then subtracts exactly the amount; otherwise nothing changes |
| State.GameState.AddLightyears | js/state.js:58-61 | lightyears become min(old + amount, 1,000,000), never above the cap; returns true iff the cap is reached |
| State.GameState.RemoveLightyears | js/state.js:63-69 | succeeds iff lightyears ≥ amount, then subtracts exactly the amount; otherwise nothing changes |
| State.GameState.EmptySlotIndex | js/state.js:75-77 | like `findIndex`, -1 iff every slot is occupied, otherwise the lowest empty slot |
| State.GameState.HasEmptySlot | js/state.js:79-81 | true iff some slot is empty, iff the empty-slot index is not -1 |
| State.GameState.AddSail | js/state.js:83-96 | a full inventory returns None and changes nothing; otherwise a sail with durability 100, not broken, goes into the lowest empty slot and no other slot changes |
| State.GameState.AddBattery | js/state.js:98-109 | a full inventory returns None and changes nothing; otherwise the battery goes into the lowest empty slot and no other slot changes |
| State.GameState.RemoveSlot | js/state.js:111-118 | a bad index or an empty slot returns None and changes nothing; otherwise exactly that slot is emptied and its item returned |
| State.GameState.DestroyAllSails | js/state.js:120-124 | the slots become KeepBatteries of the old slots |
| State.GameState.SlotCounts | js/state.js:126-147 | the sail and battery counts, the power of sails with positive durability, and the batteries' total rate |
| State.GameState.TotalPhotonRate | js/state.js:48-52 | the photon rate is 0 when no slot holds a battery; the sum itself is `RateSum`, the reference that `SlotCounts`'s loop is proved against |
| State.NoBatteriesNoRate | js/state.js:48-52 | with no battery among the slots the summed photon rate is 0 |
| State.GameState.ProcessMiningCycle | js/state.js:153-186 | every slot decays as DecaySlot; the power is that of the still-working sails; distance = power × randRange(5, 15); logs each newly broken sail, then the distance or the warning |
| State.GameState.ClaimWarrant | js/state.js:192-198 | warrants + 1, lightyears 0, not won, map timer = MAP_DURATIONS[min(warrants, 4)] |
| State.GameState.AddLogEntry | js/state.js:204-212 | the log becomes PrependCapped of the new entry, which is returned |
| State.GameState.ProgressRatio | js/state.js:218-220 | the ratio lies in [0, 1] while lightyears do, and is 1 at the cap |
| State.GameState.CheckWinCondition | js/state.js:222-228 | true iff lightyears ≥ 1,000,000 and not yet won; hasWon is then set |
| State.CheckWinTwice | js/state.js:222-228 | a second check right after a first never reports a win |
| State.SailPowerFor | js/state.js:260-262 | power ≥ 1; for intensities ≥ 500 it is sun/1000 rounded to the nearest integer, halves up |
| State.BatteryRateFor | js/state.js:264-266 | for non-negative prices the rate is price/1000 rounded to hundredths, halves up |
| State.MarketOutputsInRange | js/state.js:260-266 | within the market bounds, sail power lies in 500..690 and the battery rate in [3, 5] |
| State.MarketState.constructor | js/state.js:235-238 | both values start at their initial values, inside their bounds |
| State.MarketState.UpdateSunIntensity | js/state.js:240-248 | the new value is clamp(old + randRange(-2500, 2500)), stays in [500000, 690000] and moves by at most 2500 |
| State.MarketState.UpdateEthPrice | js/state.js:250-258 | the new value is clamp(old + randRange(-100, 100)), stays in [3000, 5000] and moves by at most 100 |
| State.MarketState.CalculateBatteryRate | js/state.js:264-266 | the ETH price in thousands rounded half up to hundredths, in [3, 5] within the price bounds |
| State.MarketState.CalculateSailPower | js/state.js:260-262 | the sail power is at least 1 |
| State.ExtendTrailSpec | js/state.js:292-300 | the trail stays ≤ 100 long with neighbours more than 2 apart in x; if the position moved more than 2 in x it is appended, the earlier points are kept in order and only the oldest is dropped once 100 are held; otherwise the trail is unchanged |
| State.UIState.constructor | js/state.js:273-283 | theme 0, track 2, scanner 0, no cooldown, no active encounter or result, empty trail, tabs not initialized |
| State.UIState.Reset | js/state.js:285-290 | cooldown 0, no active encounter or result, empty trail |
| State.UIState.AddShipPosition | js/state.js:292-300 | the trail becomes ExtendTrail of the old trail |
| State.UIState.ClearShipPositions | js/state.js:302-304 | the trail is empty |
| Encounters.Walk | js/encounters.js:33-44 | the walk that accumulates the chances returns the first entry whose cumulative chance reaches the roll, or None when no cumulative chance does |
| Encounters.SelectEncounter | js/encounters.js:33-47 | the selected entry is the first whose cumulative chance reaches the roll; None iff none does |
| Encounters.SelectionInterval | js/encounters.js:33-47 | with non-negative chances, entry i is selected iff the roll lies in (cumulative before i, cumulative after i] |
| Encounters.NothingSelectedBeyondTotal | js/encounters.js:33-47 | with non-negative chances, nothing is selected iff the roll exceeds the total chance |
| Encounters.CatalogSelection | js/encounters.js:33-47 | in the game's catalog, nothing is selected iff the roll exceeds 0.53 |
| Encounters.WalkExample | js/encounters.js:33-47 | for chances [0.5, 0.3], rolls 0.4, 0.7 and 0.9 select entry 0, entry 1 and nothing |
| Encounters.TriggeredSpec | js/encounters.js:25-47 | a trigger activates an encounter iff lightyears ≥ 10,000, the trigger draw ≤ 0.75 and the roll ≤ 0.53; the encounter comes from the catalog |
| Encounters.FallbackIndex | js/encounters.js:69 | the fallback draw picks a valid catalog index |
| Encounters.Outcome | js/encounters.js:107-129 | the risk is won iff the win draw is below winChance; the cost is the stake and the net change is payout − cost |
| Encounters.OutcomeBounds | js/encounters.js:107-130 | a catalog win pays minLy..maxLy, a loss 1000..5000 with a negative net; when the balance covered the stake, the new balance is at least the payout, so the floor at 0 never applies |
| Encounters.PayoutNotCapped | js/encounters.js:130 | a won encounter at 999,000 lightyears leaves the balance above 1,000,000 |
| Encounters.EncounterManager.constructor | js/encounters.js:12-17 | the manager shares the given game and UI state |
| Encounters.EncounterManager.TriggerRandomEncounter | js/encounters.js:25-47 | the result is Triggered of the balance and the draws; it becomes the active encounter with an alert, and otherwise nothing changes |
| Encounters.EncounterManager.ForceTriggerEncounter | js/encounters.js:54-76 | the active encounter is always set, to the selected entry or else to the fallback entry, and an alert is logged |
| Encounters.EncounterManager.HandleEncounterDecision | js/encounters.js:83-142 | no active encounter: None, nothing changes; declining: Avoided, lightyears unchanged; too few lightyears: InsufficientLy, unchanged; otherwise lightyears = max(0, old + net) and the success or failure text is kept; the active encounter is cleared on every branch |
| Minigame.BaseSpeedAt | js/minigame.js:138 | the speed 4 + 0.5·⌊f/480⌋ is at least 4 |
| Minigame.SpawnIntervalAt | js/minigame.js:140 | the spawn interval max(30, 120 − 10·⌊f/600⌋) lies in [30, 120] |
| Minigame.DifficultyMonotone | js/minigame.js:138-140 | the speed never decreases and the spawn interval never increases with the frame count |
| Minigame.SpawnIntervalFloor | js/minigame.js:140 | from frame 5400 on, the interval is 30 |
| Minigame.CanvasX | js/minigame.js:86-90 | the track is centred on the canvas: x maps to width/2 + x |
| Minigame.CollisionTrackRelative | js/minigame.js:177-204 | a wall hits iff it strictly overlaps the player's rows and the player's body is not within the gap, in track coordinates |
| Minigame.PlayerInsideTrack | js/minigame.js:127-131 | with the slider in [-100, 100], \|playerX\| ≤ the maximal deviation and the player's body stays inside the track |
| Minigame.NewObstacle | js/minigame.js:158-167 | a new wall has y = −10 and h = 30, a gap 0.25..0.6 of the track wide, and a gap wholly inside the track |
| Minigame.OnScreenSpec | js/minigame.js:155 | the filter keeps exactly the walls above the bottom edge |
| Minigame.WarpMinigame.constructor | js/minigame.js:11-50 | idle, score 0, centred player, no walls, spawn interval 120, frame 0, speed 4 |
| Minigame.WarpMinigame.GetCanvasX | js/minigame.js:86-90 | x maps to the canvas width/2 + x |
| Minigame.WarpMinigame.Update | js/minigame.js:123-172 | not running: nothing changes; running: the player follows the slider, score = 167 × old frame count, the speed and interval follow the ramp, the walls move and are filtered, a wall is spawned iff SpawnsAt, crashed iff some wall hits, and the frame count advances by 1 |
| Minigame.WarpMinigame.MoveObstacles | js/minigame.js:152-154 | every wall moves down by the game speed |
| Minigame.WarpMinigame.DropPassedObstacles | js/minigame.js:155 | the walls become OnScreen of the old walls |
| Minigame.WarpMinigame.CheckCollisions | js/minigame.js:177-204 | with a non-zero canvas width, the game ends iff some wall hits the player; otherwise the running flag is unchanged |
| Minigame.WarpMinigame.GameOver | js/minigame.js:311-317 | the run stops |
| Minigame.WarpMinigame.WarpOut | js/minigame.js:322-328 | when not running, None and nothing changes; otherwise the run stops and the current score is returned once |
| Minigame.WarpMinigame.Start | js/minigame.js:333-353 | a no-op while running; otherwise the game resets, starts, and its first frame leaves score 0, no walls and frame count 1 |
| Orchestration.Game.constructor | js/main.js:29-50 | fresh components, wired together, with the loops not running: the game state is Initial, sun intensity and ETH price at their initial values, the UI at theme 0 and track 2 with cooldown 0, no active encounter or result and an empty trail, and an idle minigame of the given canvas size with score 0, player at 0, no walls, frame 0 and the initial speed and spawn interval |
| Orchestration.Game.StartGameLoops | js/main.js:304-317 | a no-op while running; otherwise the loops run and "powered up" is logged |
| Orchestration.Game.StopGameLoops | js/main.js:319-326 | the loops stop |
| Orchestration.Game.HandlePhotonsDrip | js/main.js:328-335 | photons grow by exactly the batteries' total rate when it is positive, and are unchanged otherwise |
| Orchestration.Game.HandleMiningAndDecay | js/main.js:337-355 | a no-op once won; otherwise a mining cycle, a positive distance added up to the cap, and hasWon set (loops stopped) iff the cap is reached |
| Orchestration.Game.HandleCraftCooldown | js/main.js:357-362 | the cooldown drops by 1 only while positive |
| Orchestration.Game.HandleMapTimer | js/main.js:364-378 | a no-op once won; otherwise the timer drops by 1 only while positive, and game over (loops stopped) fires iff it is then 0 |
| Orchestration.Game.CraftSolarSail | js/main.js:384-405 | crafted iff no cooldown, an empty slot and ≥ 250 photons; if not, nothing changes; if so, a sail of the market's power goes into the lowest empty slot, exactly 250 photons are paid, the cooldown is 10, and the trigger rule runs |
| Orchestration.Game.CraftBattery | js/main.js:407-432 | crafted iff no cooldown, an empty slot and ≥ 5000 lightyears; if not, only an error line; if so, a battery of the market's rate goes into the lowest empty slot, exactly 5000 lightyears are paid, the cooldown is 5, and the trigger rule runs on the reduced balance |
| Orchestration.Game.RemoveModule | js/main.js:434-444 | an occupied slot in range is emptied and its item reported with the 1-based slot number; otherwise nothing changes |
| Orchestration.Game.AttemptEnterBlackhole | js/main.js:475-494 | with ≥ 250,000 lightyears, exactly 250,000 are paid, only batteries remain and the minigame runs: one already running is left unchanged, otherwise it is reset (score 0, player at 0, no walls, initial speeds and spawn interval) and has run its first frame; otherwise nothing changes but an error line |
| Orchestration.Game.HandleMinigameSuccess | js/main.js:496-512 | the score is added up to the cap; hasWon is set and the loops stop iff the cap is reached before any win |
| Orchestration.Game.HandleMinigameFailure | js/main.js:514-519 | the loops stop and the loss is logged |
| Orchestration.Game.MinigameFrame | js/minigame.js:300-306 | in a running game the frame is Update's frame (player position, score, speed, spawn interval, moved, filtered and spawned walls, frame count + 1) and it crashes iff a wall hits the player; a crash stops the game and the loops and logs the loss; an idle minigame is untouched |
| Orchestration.Game.WarpOut | js/minigame.js:322-328 | a running game stops and its score is added to the lightyears up to the cap, setting hasWon and stopping the loops when that reaches the cap first; otherwise nothing changes |
| Orchestration.Game.HandleFullReset | js/main.js:257-272 | the game state is back to its initial state, the UI state is reset with cooldown 0, and the loops run again |

## Left out

- Rendering, animation, audio and the DOM are not modelled: js/animations.js, js/audio.js, js/ui.js, the minigame's `draw`, `initStars` and star movement, and the slider events. They hold no game rules. The rules depend on two UI calls. js/ui.js's `addLog` stores log lines: the model returns the lines instead, and `AddLogEntry` models how they are stored. `renderMap` (js/ui.js:134-156), run by every `render()` after a handler, extends the ship trail: the handlers here leave `pastShipPositions` unchanged, and the caller extends it through `UIState.AddShipPosition`.
- Timers are not modelled. `setInterval`, `setTimeout`, `requestAnimationFrame` and the 1.5 s loading delay become handler methods and the `loopsRunning` flag. The cooldown, sun-intensity and gauge intervals at js/main.js:311-314 are started on every `startGameLoops` and never cleared. The model does not track those stray intervals.
- The calls to `gameState.advanceToNextMap()` (js/main.js:290) and `marketState.updateSubstrateConductivity()` (js/main.js:313) are not modelled, because these methods exist nowhere in the code.
- The Farcaster SDK, click delegation, tabs, themes, mute, scanner text and the `mintTest*` handlers are not modelled. They are I/O and test plumbing.
- `debounce` is not modelled: it is timer-based and nothing calls it.
- `resizeCanvas` is not modelled. The canvas size is fixed when the minigame is constructed, so the `playerX = 0` that a resize performs is not modelled.
- Floating point is not modelled. Photons, rates and geometry are exact reals, and the cumulative chance sum is exact. `Math.round(sun * 0.001)` is modelled as integer rounding with halves up. `toFixed(2)` is modelled as rounding to hundredths with halves up. `toLocaleString` number formatting is left to the `Message` values.
- Order of the random draws: the mining cycle takes one draw per slot, but the source draws only for sails with positive durability. The set of possible outcomes is the same; the order of the random stream is not modelled.
- The minigame's callbacks are not stored. `start(onSuccess, onFailure)` keeps them, but the model returns a crash from `Update` and a score from `WarpOut` instead, and `Orchestration.Game` wires those results to the two handlers.
- The `handleEncounterDecision` and `forceTriggerEncounter` wrappers in js/main.js only add a click sound, a log line and a popup around the `EncounterManager` methods, so they are not modelled separately.
