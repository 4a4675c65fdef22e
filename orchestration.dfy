/**
 * The rule handlers of the `Game` object in js/main.js: crafting, jettisoning,
 * the black-hole entry, the periodic tick handlers, the win and game-over
 * edges, and the full reset.
 *
 * Timers become a flag (`loopsRunning`) plus handler methods the caller
 * invokes at the tick; sounds, screens and rendering are left out; the lines
 * handed to the UI log are returned. Ids, clock readings and random draws are
 * parameters.
 */
module Orchestration {
  import opened Wrappers
  import opened Utils
  import opened Config
  import opened State
  import opened Encounters
  import opened Minigame

  /** Lightyears needed (and paid) to enter the black hole. */
  const BlackholeCost: int := 250000

  /** `craftBattery` sets this cooldown, not CRAFT_COOLDOWN. */
  const BatteryCooldown: int := 5

  class Game {
    const gameState: GameState
    const marketState: MarketState
    const uiState: UIState
    const warpMinigame: WarpMinigame
    const encounterManager: EncounterManager
    /** The drip, mining and map-timer intervals are scheduled. */
    var loopsRunning: bool

    ghost predicate Valid()
      reads this, gameState, marketState, uiState, warpMinigame, encounterManager
    {
      && gameState.Valid() && marketState.Valid() && uiState.Valid() && warpMinigame.Valid()
      && encounterManager.gameState == gameState && encounterManager.uiState == uiState
    }

    constructor (now: int, clock: string, canvasWidth: real, canvasHeight: real)
      requires canvasWidth >= 0.0 && canvasHeight >= 0.0
      ensures Valid() && !loopsRunning
      ensures fresh(gameState) && fresh(gameState.slots) && fresh(marketState) && fresh(uiState)
      ensures fresh(warpMinigame) && fresh(encounterManager)
      ensures gameState.Initial(now, clock)
      ensures marketState.sunIntensity == SunIntensity.initial && marketState.ethPrice == EthPrice.initial
      ensures uiState.currentThemeIndex == 0 && uiState.currentTrackIndex == 2 && uiState.scannerDisplayIndex == 0
      ensures uiState.craftCooldownTimer == 0 && uiState.activeEncounter == None && uiState.lastEncounterResult == None
      ensures uiState.pastShipPositions == [] && !uiState.engineTabInitialized && !uiState.mapTabInitialized
      ensures warpMinigame.canvasWidth == canvasWidth && warpMinigame.canvasHeight == canvasHeight
      ensures !warpMinigame.isRunning && warpMinigame.score == 0 && warpMinigame.playerX == 0.0
      ensures warpMinigame.obstacles == [] && warpMinigame.frameCount == 0
      ensures warpMinigame.obstacleSpawnRate == InitialSpawnRate
      ensures warpMinigame.baseSpeed == InitialSpeed && warpMinigame.gameSpeed == InitialSpeed
      ensures encounterManager.gameState == gameState && encounterManager.uiState == uiState
    {
      var g := new GameState(now, clock);
      var u := new UIState();
      gameState := g;
      marketState := new MarketState();
      uiState := u;
      warpMinigame := new WarpMinigame(canvasWidth, canvasHeight);
      encounterManager := new EncounterManager(g, u);
      loopsRunning := false;
    }

    // ---------------------------------------------------------------
    // Loops
    // ---------------------------------------------------------------

    /** `startGameLoops`: a no-op while running; otherwise the loops start and "powered up" is logged. */
    method StartGameLoops() returns (lines: seq<LogLine>)
      modifies this`loopsRunning
      ensures loopsRunning
      ensures lines == if old(loopsRunning) then [] else [LogLine(PoweredUp, Info)]
    {
      if loopsRunning {
        return [];
      }
      loopsRunning := true;
      lines := [LogLine(PoweredUp, Info)];
    }

    /** `stopGameLoops` */
    method StopGameLoops()
      modifies this`loopsRunning
      ensures !loopsRunning
    {
      loopsRunning := false;
    }

    // ---------------------------------------------------------------
    // Tick handlers
    // ---------------------------------------------------------------

    /** `handlePhotonsDrip`: the batteries' total rate is added when positive. */
    method HandlePhotonsDrip()
      modifies gameState`photons
      ensures var rate := RateSum(gameState.slots[..]);
        gameState.photons == if rate > 0.0 then old(gameState.photons) + rate else old(gameState.photons)
    {
      var totalPhotonGain := gameState.TotalPhotonRate();
      if totalPhotonGain > 0.0 {
        gameState.AddPhotons(totalPhotonGain);
      }
    }

    /**
     * `handleMiningAndDecay`: nothing once won. Otherwise a mining cycle runs;
     * a positive distance is added (capped), and reaching the cap sets hasWon
     * and stops the loops.
     */
    method HandleMiningAndDecay(draws: seq<real>, gainDraw: real) returns (lines: seq<LogLine>)
      requires Valid() && |draws| == SailSlots && ValidDraws(draws) && 0.0 <= gainDraw < 1.0
      modifies gameState.slots, gameState`lightyears, gameState`hasWon, this`loopsRunning
      ensures Valid()
      ensures old(gameState.hasWon) ==>
        && lines == [] && gameState.slots[..] == old(gameState.slots[..])
        && gameState.lightyears == old(gameState.lightyears) && gameState.hasWon
        && loopsRunning == old(loopsRunning)
      ensures !old(gameState.hasWon) ==>
        var power := Power(gameState.slots[..]);
        var gain := power * RandRange(5, 15, gainDraw);
        var capped := if old(gameState.lightyears) + gain < WinDistance then old(gameState.lightyears) + gain else WinDistance;
        && gameState.slots[..] == Mined(old(gameState.slots[..]), draws)
        && gameState.lightyears == (if gain > 0 then capped else old(gameState.lightyears))
        && (gameState.hasWon <==> gain > 0 && gameState.lightyears == WinDistance)
        && loopsRunning == (old(loopsRunning) && !gameState.hasWon)
        && lines == BreakLines(old(gameState.slots[..]), draws) + CycleSummary(gain, power, gameState.slots[..])
    {
      if gameState.hasWon {
        return [];
      }
      var lyGain, totalPower;
      lyGain, totalPower, lines := gameState.ProcessMiningCycle(draws, gainDraw);
      if lyGain > 0 {
        var won := gameState.AddLightyears(lyGain);
        if won && !gameState.hasWon {
          gameState.hasWon := true;
          StopGameLoops();
        }
      }
    }

    /** `handleCraftCooldown`: one second off the cooldown, never below 0. */
    method HandleCraftCooldown()
      requires Valid()
      modifies uiState`craftCooldownTimer
      ensures Valid()
      ensures uiState.craftCooldownTimer ==
        if old(uiState.craftCooldownTimer) > 0 then old(uiState.craftCooldownTimer) - 1 else old(uiState.craftCooldownTimer)
    {
      if uiState.craftCooldownTimer > 0 {
        uiState.craftCooldownTimer := uiState.craftCooldownTimer - 1;
      }
    }

    /**
     * `handleMapTimer`: nothing once won. Otherwise one second off the map
     * timer, never below 0; game over is signalled (and the loops stop)
     * exactly when the timer is then 0.
     */
    method HandleMapTimer() returns (gameOver: bool)
      requires Valid()
      modifies gameState`mapTimer, this`loopsRunning
      ensures Valid()
      ensures old(gameState.hasWon) ==>
        !gameOver && gameState.mapTimer == old(gameState.mapTimer) && loopsRunning == old(loopsRunning)
      ensures !old(gameState.hasWon) ==>
        && gameState.mapTimer == (if old(gameState.mapTimer) > 0 then old(gameState.mapTimer) - 1 else 0)
        && (gameOver <==> gameState.mapTimer == 0)
        && loopsRunning == (old(loopsRunning) && !gameOver)
    {
      if gameState.hasWon {
        return false;
      }
      if gameState.mapTimer > 0 {
        gameState.mapTimer := gameState.mapTimer - 1;
      }
      gameOver := gameState.mapTimer <= 0;
      if gameOver {
        StopGameLoops();
      }
    }

    // ---------------------------------------------------------------
    // Crafting
    // ---------------------------------------------------------------

    /**
     * `craftSolarSail`: refused (nothing changes) while the cooldown runs, when
     * no slot is empty, or with fewer than 250 photons. Otherwise a sail with
     * the market's power goes into the lowest empty slot, 250 photons are paid,
     * the cooldown is set to 10 and an encounter may trigger.
     */
    method CraftSolarSail(id: string, triggerDraw: real, roll: real) returns (crafted: bool, lines: seq<LogLine>)
      requires Valid()
      modifies gameState.slots, gameState`photons, uiState`craftCooldownTimer, uiState`activeEncounter
      ensures Valid()
      ensures crafted <==>
        old(uiState.craftCooldownTimer) <= 0 && FirstEmpty(old(gameState.slots[..])) != -1
        && old(gameState.photons) >= CraftSailCost as real
      ensures !crafted ==>
        && lines == [] && gameState.slots[..] == old(gameState.slots[..])
        && gameState.photons == old(gameState.photons)
        && uiState.craftCooldownTimer == old(uiState.craftCooldownTimer)
        && uiState.activeEncounter == old(uiState.activeEncounter)
      ensures crafted ==>
        var power := SailPowerFor(marketState.sunIntensity);
        var e := Triggered(gameState.lightyears, triggerDraw, roll);
        && gameState.slots[..] == old(gameState.slots[..])[FirstEmpty(old(gameState.slots[..])) := Occupied(NewSail(id, power))]
        && gameState.photons == old(gameState.photons) - CraftSailCost as real
        && uiState.craftCooldownTimer == CraftCooldown
        && uiState.activeEncounter == (if e.Some? then e else old(uiState.activeEncounter))
        && lines == [LogLine(SailCrafted(power), Info)] + AlertLines(e)
    {
      if uiState.craftCooldownTimer > 0 || !gameState.HasEmptySlot() || gameState.photons < CraftSailCost as real {
        return false, [];
      }
      var power := marketState.CalculateSailPower();
      var sail := gameState.AddSail(power, id);
      var paid := gameState.RemovePhotons(CraftSailCost as real);
      uiState.craftCooldownTimer := CraftCooldown;
      var triggered, alert := encounterManager.TriggerRandomEncounter(triggerDraw, roll);
      return true, [LogLine(SailCrafted(power), Info)] + alert;
    }

    /**
     * `craftBattery`: refused, with an error line, while the cooldown runs, when
     * no slot is empty, or below 5000 lightyears. Otherwise a battery with the
     * market's rate goes into the lowest empty slot, 5000 lightyears are paid,
     * the cooldown is set to 5 and an encounter may trigger (on the reduced balance).
     */
    method CraftBattery(id: string, triggerDraw: real, roll: real) returns (crafted: bool, lines: seq<LogLine>)
      requires Valid()
      modifies gameState.slots, gameState`lightyears, uiState`craftCooldownTimer, uiState`activeEncounter
      ensures Valid()
      ensures crafted <==>
        old(uiState.craftCooldownTimer) <= 0 && FirstEmpty(old(gameState.slots[..])) != -1
        && old(gameState.lightyears) >= CraftBatteryCost
      ensures !crafted ==>
        && lines == [LogLine(BatteryRefused, Error)] && gameState.slots[..] == old(gameState.slots[..])
        && gameState.lightyears == old(gameState.lightyears)
        && uiState.craftCooldownTimer == old(uiState.craftCooldownTimer)
        && uiState.activeEncounter == old(uiState.activeEncounter)
      ensures crafted ==>
        var rate := BatteryRateFor(marketState.ethPrice);
        var e := Triggered(gameState.lightyears, triggerDraw, roll);
        && gameState.slots[..] == old(gameState.slots[..])[FirstEmpty(old(gameState.slots[..])) := Occupied(Battery(id, rate))]
        && gameState.lightyears == old(gameState.lightyears) - CraftBatteryCost
        && uiState.craftCooldownTimer == BatteryCooldown
        && uiState.activeEncounter == (if e.Some? then e else old(uiState.activeEncounter))
        && lines == [LogLine(BatteryCrafted(rate, CraftBatteryCost), Info)] + AlertLines(e)
    {
      if uiState.craftCooldownTimer > 0 || !gameState.HasEmptySlot() || gameState.lightyears < CraftBatteryCost {
        return false, [LogLine(BatteryRefused, Error)];
      }
      var rate := marketState.CalculateBatteryRate();
      var battery := gameState.AddBattery(rate, id);
      var paid := gameState.RemoveLightyears(CraftBatteryCost);
      uiState.craftCooldownTimer := BatteryCooldown;
      var triggered, alert := encounterManager.TriggerRandomEncounter(triggerDraw, roll);
      return true, [LogLine(BatteryCrafted(rate, CraftBatteryCost), Info)] + alert;
    }

    /** `removeModule`: jettisons the item in slot `index`; nothing for a bad index or an empty slot. */
    method RemoveModule(index: int) returns (lines: seq<LogLine>)
      requires Valid()
      modifies gameState.slots
      ensures Valid()
      ensures 0 <= index < gameState.slots.Length && old(gameState.slots[..])[index].Occupied? ==>
        && gameState.slots[..] == old(gameState.slots[..])[index := Empty]
        && lines == [LogLine(Jettisoned(old(gameState.slots[..])[index].item, index + 1), Info)]
      ensures !(0 <= index < gameState.slots.Length && old(gameState.slots[..])[index].Occupied?) ==>
        gameState.slots[..] == old(gameState.slots[..]) && lines == []
    {
      if !(0 <= index < gameState.slots.Length && gameState.slots[index].Occupied?) {
        return [];
      }
      var removed := gameState.RemoveSlot(index);
      lines := [];
      if removed.Some? {
        lines := [LogLine(Jettisoned(removed.value, index + 1), Info)];
      }
    }

    // ---------------------------------------------------------------
    // Black hole
    // ---------------------------------------------------------------

    /**
     * `attemptEnterBlackhole`: with at least 250,000 lightyears, they are paid,
     * every sail is destroyed (batteries stay) and the minigame starts (a
     * minigame already running is left as it is); otherwise nothing changes
     * but an error line.
     */
    method AttemptEnterBlackhole() returns (lines: seq<LogLine>)
      requires Valid()
      modifies gameState`lightyears, gameState.slots, warpMinigame
      ensures Valid()
      ensures old(gameState.lightyears) >= BlackholeCost ==>
        && gameState.lightyears == old(gameState.lightyears) - BlackholeCost
        && gameState.slots[..] == KeepBatteries(old(gameState.slots[..]))
        && warpMinigame.isRunning
        && (old(warpMinigame.isRunning) ==> unchanged(warpMinigame))
        && (!old(warpMinigame.isRunning) ==>
              && warpMinigame.score == 0 && warpMinigame.playerX == 0.0
              && warpMinigame.obstacles == [] && warpMinigame.frameCount == 1
              && warpMinigame.baseSpeed == InitialSpeed && warpMinigame.gameSpeed == InitialSpeed
              && warpMinigame.obstacleSpawnRate == InitialSpawnRate)
        && lines == [LogLine(SailsDestroyed, Error)]
      ensures old(gameState.lightyears) < BlackholeCost ==>
        && gameState.lightyears == old(gameState.lightyears)
        && gameState.slots[..] == old(gameState.slots[..])
        && unchanged(warpMinigame)
        && lines == [LogLine(BlackholeRefused, Error)]
    {
      if gameState.lightyears >= BlackholeCost {
        var paid := gameState.RemoveLightyears(BlackholeCost);
        gameState.DestroyAllSails();
        lines := [LogLine(SailsDestroyed, Error)];
        warpMinigame.Start();
      } else {
        lines := [LogLine(BlackholeRefused, Error)];
      }
    }

    /**
     * `handleMinigameSuccess`: the score is added as lightyears (capped); if
     * that reaches the cap before any win, hasWon is set and the loops stop.
     */
    method HandleMinigameSuccess(finalScore: int) returns (lines: seq<LogLine>)
      requires Valid()
      modifies gameState`lightyears, gameState`hasWon, this`loopsRunning
      ensures Valid()
      ensures gameState.lightyears ==
        if old(gameState.lightyears) + finalScore < WinDistance then old(gameState.lightyears) + finalScore else WinDistance
      ensures gameState.hasWon <==> old(gameState.hasWon) || gameState.lightyears == WinDistance
      ensures loopsRunning == (old(loopsRunning) && (old(gameState.hasWon) || gameState.lightyears < WinDistance))
      ensures lines == [LogLine(WarpedOut(finalScore), Success)]
    {
      lines := [LogLine(WarpedOut(finalScore), Success)];
      var won := gameState.AddLightyears(finalScore);
      if won && !gameState.hasWon {
        gameState.hasWon := true;
        StopGameLoops();
      }
    }

    /** `handleMinigameFailure`: the ship is lost; game over, and the loops stop. */
    method HandleMinigameFailure() returns (lines: seq<LogLine>)
      modifies this`loopsRunning
      ensures !loopsRunning && lines == [LogLine(LostInBlackhole, Error)]
    {
      lines := [LogLine(LostInBlackhole, Error)];
      StopGameLoops();
    }

    /** One `gameLoop` frame of the minigame, with its failure callback wired to HandleMinigameFailure. */
    method MinigameFrame(slider: int, widthDraw: real, centreDraw: real) returns (crashed: bool, lines: seq<LogLine>)
      requires Valid() && 0.0 <= widthDraw < 1.0 && 0.0 <= centreDraw < 1.0
      modifies warpMinigame, this`loopsRunning
      ensures Valid()
      ensures crashed ==> old(warpMinigame.isRunning) && !warpMinigame.isRunning && !loopsRunning
                          && lines == [LogLine(LostInBlackhole, Error)]
      ensures !crashed ==> loopsRunning == old(loopsRunning) && lines == []
      ensures !old(warpMinigame.isRunning) ==> !crashed && unchanged(warpMinigame)
      ensures old(warpMinigame.isRunning) ==>
        var m := warpMinigame;
        && m.playerX == MaxDeviation(m.canvasWidth) * (slider as real / 100.0)
        && m.score == old(m.frameCount) * ScorePerFrame
        && m.baseSpeed == BaseSpeedAt(old(m.frameCount)) && m.gameSpeed == m.baseSpeed
        && m.obstacleSpawnRate == SpawnIntervalAt(old(m.frameCount))
        && m.obstacles == OnScreen(Moved(old(m.obstacles), m.gameSpeed), m.canvasHeight)
                          + (if SpawnsAt(old(m.frameCount)) then [NewObstacle(TrackWidth(m.canvasWidth), widthDraw, centreDraw)] else [])
        && (crashed <==> m.canvasWidth != 0.0 && exists i :: 0 <= i < |m.obstacles| && Collides(m.obstacles[i], m.playerX, m.canvasWidth, m.canvasHeight))
        && m.isRunning == !crashed
        && m.frameCount == old(m.frameCount) + 1
    {
      crashed := warpMinigame.Update(slider, widthDraw, centreDraw);
      lines := [];
      if crashed {
        lines := HandleMinigameFailure();
      }
    }

    /** The warp-out button, with the success callback wired to HandleMinigameSuccess. */
    method WarpOut() returns (claimed: Option<int>, lines: seq<LogLine>)
      requires Valid()
      modifies warpMinigame`isRunning, gameState`lightyears, gameState`hasWon, this`loopsRunning
      ensures Valid() && !warpMinigame.isRunning
      ensures !old(warpMinigame.isRunning) ==>
        claimed == None && lines == [] && gameState.lightyears == old(gameState.lightyears)
        && gameState.hasWon == old(gameState.hasWon) && loopsRunning == old(loopsRunning)
      ensures old(warpMinigame.isRunning) ==>
        && claimed == Some(warpMinigame.score)
        && gameState.lightyears ==
             (if old(gameState.lightyears) + warpMinigame.score < WinDistance
              then old(gameState.lightyears) + warpMinigame.score else WinDistance)
        && lines == [LogLine(WarpedOut(warpMinigame.score), Success)]
        && (gameState.hasWon <==> old(gameState.hasWon) || gameState.lightyears == WinDistance)
        && loopsRunning == (old(loopsRunning) && (old(gameState.hasWon) || gameState.lightyears < WinDistance))
    {
      claimed := warpMinigame.WarpOut();
      lines := [];
      if claimed.Some? {
        lines := HandleMinigameSuccess(claimed.value);
      }
    }

    // ---------------------------------------------------------------
    // Reset
    // ---------------------------------------------------------------

    /**
     * `handleFullReset`: the game and UI state return to their initial values,
     * the cooldown is 0, and the loops are restarted (logging "powered up").
     */
    method HandleFullReset(now: int, clock: string) returns (lines: seq<LogLine>)
      requires Valid()
      modifies gameState, uiState`craftCooldownTimer, uiState`activeEncounter, uiState`lastEncounterResult,
               uiState`pastShipPositions, this`loopsRunning
      ensures Valid() && fresh(gameState.slots)
      ensures gameState.Initial(now, clock)
      ensures uiState.craftCooldownTimer == 0 && uiState.activeEncounter == None
      ensures uiState.lastEncounterResult == None && uiState.pastShipPositions == []
      ensures loopsRunning && lines == [LogLine(PoweredUp, Info)]
    {
      gameState.Reset(now, clock);
      uiState.Reset();
      uiState.craftCooldownTimer := 0;
      StopGameLoops();
      lines := StartGameLoops();
    }
  }
}
