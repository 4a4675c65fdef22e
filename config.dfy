/**
 * The constant tables of js/config.js that the game rules read, with the
 * well-formedness facts the rules rely on.
 */
module Config {
  import opened Utils

  // GAME_CONFIG
  const WinDistance: int := 1000000
  const PhotonsDripInterval: int := 1000    // milliseconds
  const MiningInterval: int := 5000         // milliseconds
  const CraftSailCost: int := 250           // photons
  const CraftBatteryCost: int := 5000       // lightyears
  const SailMaxDurability: int := 100
  const SailSlots: int := 8
  const CraftCooldown: int := 10            // seconds
  const EncounterTriggerChance: real := 0.75
  const GaugeSegments: int := 15

  /** Seconds allowed for each map: 5.5, 3.5, 2.5, 3 and 1.5 minutes. */
  const MapDurations: seq<int> := [330, 210, 150, 180, 90]

  const SystemNames: seq<string> := [
    "Orion's Anvil",
    "The Crimson Expanse",
    "Hyperion Reach",
    "Specter's Drift",
    "The Cygnus Forge",
    "Leviathan's Cradle"
  ]

  // MAP_NODES
  const MapStart: Point := Point(50.0, 350.0)
  const MapEnd: Point := Point(350.0, 50.0)

  /** A market value's range and starting point. */
  datatype Bounds = Bounds(min: int, max: int, initial: int)

  const SunIntensity: Bounds := Bounds(500000, 690000, 500000)
  const EthPrice: Bounds := Bounds(3000, 5000, 4000)

  datatype Theme = Theme(name: string, color: string, trackIndex: int)

  const Themes: seq<Theme> := [
    Theme("STANDARD", "#00ff41", 2),
    Theme("COMBAT", "#ff4100", 3),
    Theme("STEALTH", "#00ffff", 4),
    Theme("HAZARD", "#ffff00", 1),
    Theme("OUTLAW", "#a855f7", 0)
  ]

  const TrackNames: seq<string> := [
    "Outlaw Radio",
    "Stardust Echoes",
    "Void Drifter",
    "Red Alert",
    "Distress Signal"
  ]

  /** The `type` tag of an encounter. */
  datatype EncounterKind = Gain | Loss | Mix

  /**
   * One catalog entry: `chance` is its share of the trigger roll, `lyCost` the
   * stake, `winChance` the probability of success and [minLy, maxLy] the range
   * of the payout on success.
   */
  datatype Encounter = Encounter(
    name: string,
    chance: real,
    lyCost: int,
    winChance: real,
    kind: EncounterKind,
    minLy: int,
    maxLy: int,
    description: string,
    successDescription: string,
    failureDescription: string)

  /** The catalog, in the order the trigger roll walks it. */
  const Encounters: seq<Encounter> := [
    CorporateInterdictor,
    DerelictFreighter,
    TheGhostMarket,
    TheQuantumStorm,
    AsteroidBeltRun,
    CivilianDistressCall,
    BountyHunterTracking,
    AbandonedOrbital,
    EngineMalfunction,
    SignalInterception,
    VacuumLeak,
    GravityWellSwing,
    PlasmaCloud,
    XenomorphHive,
    WarpGateAlignment
  ]

  const CorporateInterdictor: Encounter :=
    Encounter(
      "Corporate Interdictor", 0.04, 10000, 0.75, Loss, 10000, 25000,
      "Megacorp cruiser demands inspection. Reroute power to stealth field (RISK)?",
      "With a surge of power to the stealth field, The Outrider vanishes from their scopes! The corporate pigs are left scanning empty space, another costly failure for their quarterly reports.",
      "The stealth field flickers and dies! The Interdictor's tractor beam locks on, and a hefty 'fine' is siphoned from your lightyear reserves. A costly encounter with corporate justice.")

  const DerelictFreighter: Encounter :=
    Encounter(
      "Derelict Freighter", 0.04, 10000, 0.50, Gain, 15000, 45000,
      "Unstable reactor, high-value cargo. Brave radiation to salvage (RISK)?",
      "Navigating the sparking corridors, you grab the primary fusion cells just as the reactor goes critical! A clean getaway with a massive lightyear boost.",
      "A sudden radiation spike forces a hasty retreat! You escape with your life, but the salvage is lost to the void, along with the lightyears spent on the attempt.")

  const TheGhostMarket: Encounter :=
    Encounter(
      "The Ghost Market", 0.03, 10000, 0.40, Mix, 5000, 30000,
      "Shadowy dealer offers a 'jump drive shortcut.' Trap or huge payoff?",
      "The dealer was legitimate! The 'shortcut' was a stable wormhole that propels you thousands of lightyears in an instant. The galaxy just got a little smaller.",
      "It was a trap! The 'shortcut' leads directly into a pirate ambush. You escape with heavy damage, losing precious lightyears to evasive maneuvers.")

  const TheQuantumStorm: Encounter :=
    Encounter(
      "The Quantum Storm", 0.04, 10000, 0.30, Gain, 30000, 75000,
      "Wild anomaly rips open. Try to ride the current for a massive slingshot (HIGH RISK)?",
      "Masterful piloting! The Outrider surfs the quantum wave, emerging light-years ahead of schedule. The crew celebrates a legendary feat of navigation.",
      "The storm is too powerful! The ship is tossed violently, and you emerge battered and disoriented, having lost significant ground.")

  const AsteroidBeltRun: Encounter :=
    Encounter(
      "Asteroid Belt Run", 0.03, 10000, 0.65, Mix, 8000, 20000,
      "Fast route through rock field. Dangerous maneuvering required.",
      "You weave through the debris field like a phantom. The shortcut pays off, shaving precious time off your journey.",
      "A rogue asteroid clips a sail! You manage to stabilize, but the repairs cost you time and distance.")

  const CivilianDistressCall: Encounter :=
    Encounter(
      "Civilian Distress Call", 0.03, 10000, 0.60, Gain, 12000, 40000,
      "Transport disabled but rigged to explode. Risk rescue for reward?",
      "A daring rescue! You save the crew and they gratefully transfer their spare lightyear reserves to you before their ship goes supernova.",
      "It was a setup! The distress call was a lure by scavengers. You fight them off but lose lightyears in the skirmish.")

  const BountyHunterTracking: Encounter :=
    Encounter(
      "Bounty Hunter Tracking", 0.04, 10000, 0.70, Loss, 15000, 35000,
      "Professional hunter closing. Use counter-measure or hide?",
      "Your counter-measures work perfectly! The bounty hunter's tracking system is fried, and they fly right past, oblivious.",
      "The hunter is too good. They anticipate your move and force a long, costly chase before you can shake them.")

  const AbandonedOrbital: Encounter :=
    Encounter(
      "Abandoned Orbital", 0.03, 10000, 0.55, Gain, 10000, 25000,
      "Silent station. Check for forgotten fuel cells.",
      "Jackpot! The station's emergency power cells are still charged. You siphon their energy, gaining a significant lightyear boost.",
      "The station is a deathtrap. Automated defenses activate, forcing a rapid retreat. The risk was for nothing.")

  const EngineMalfunction: Encounter :=
    Encounter(
      "Engine Malfunction", 0.03, 10000, 0.70, Loss, 5000, 15000,
      "The Outrider's drives stutter. Attempt emergency field repairs under stress?",
      "With sparks flying, you jury-rig a bypass and the engines roar back to life! Crisis averted with minimal distance lost.",
      "The repair fails! The engines sputter and die, forcing you to drift while you perform a full system reboot, losing valuable time and distance.")

  const SignalInterception: Encounter :=
    Encounter(
      "Signal Interception", 0.04, 10000, 0.60, Gain, 15000, 45000,
      "Intercepted massive data transfer. Decrypt route data for a shortcut?",
      "The decryption is successful! You've uncovered a secret smuggler's route that bypasses police patrols, catapulting you forward.",
      "The data is a logic bomb! Your systems crash, and by the time they're back online, you've drifted far off course.")

  const VacuumLeak: Encounter :=
    Encounter(
      "Vacuum Leak", 0.03, 10000, 0.90, Loss, 1000, 5000,
      "Minor hull breach on The Outrider. Divert power from life support to propulsion?",
      "The patch holds! You managed to seal the breach without losing too much ground. A close call, but you're still on the run.",
      "The breach is worse than it looked! You have to divert significant power to life support, slowing your progress to a crawl.")

  const GravityWellSwing: Encounter :=
    Encounter(
      "Gravity Well Swing", 0.04, 10000, 0.55, Gain, 20000, 50000,
      "Heavy planet nearby. Attempt a precision gravity sling maneuver?",
      "Perfect execution! The Outrider slingshots around the gas giant, gaining immense speed and leaving pursuers in the dust.",
      "You miscalculate the trajectory! The planet's gravity pulls you in too close, and you have to burn precious fuel to escape, losing significant distance.")

  const PlasmaCloud: Encounter :=
    Encounter(
      "Plasma Cloud", 0.03, 10000, 0.45, Loss, 15000, 40000,
      "Corrosive energy cloud. Boost The Outrider through before shields fail?",
      "Shields hold just long enough! You punch through the cloud, emerging singed but having taken a valuable shortcut.",
      "The plasma eats through the shields! Your sails take direct damage, crippling your speed and forcing you to limp away.")

  const XenomorphHive: Encounter :=
    Encounter(
      "Xenomorph Hive", 0.04, 10000, 0.30, Loss, 40000, 80000,
      "Hostile bioforms in abandoned habitat. Attempt a fast, dangerous purge?",
      "You vent the main reactor coolant into the habitat, flash-freezing the aliens. A risky, but clean, escape.",
      "They're on the ship! You fight off the boarders, but the damage is extensive. The cost in lightyears is staggering.")

  const WarpGateAlignment: Encounter :=
    Encounter(
      "Warp Gate Alignment", 0.04, 10000, 0.35, Gain, 75000, 150000,
      "Unstable Warp Gate found. Risk alignment for a huge jump?",
      "The gate stabilizes for a split second, and you jump! The Outrider is flung across an entire sector, a massive gain.",
      "The gate collapses as you enter! You're violently shunted into an unknown, dangerous region, far from your intended path.")

  /** The sum of the trigger chances of the first n entries of a catalog. */
  function PrefixChance(catalog: seq<Encounter>, n: nat): real
    requires n <= |catalog|
  {
    if n == 0 then 0.0 else PrefixChance(catalog, n - 1) + catalog[n - 1].chance
  }

  function TotalChance(catalog: seq<Encounter>): real {
    PrefixChance(catalog, |catalog|)
  }

  // ---------------------------------------------------------------
  // Well-formedness of the tables
  // ---------------------------------------------------------------

  lemma MapDurationsWellFormed()
    ensures |MapDurations| == 5 && MapDurations[0] == 330
    ensures forall i :: 0 <= i < |MapDurations| ==> MapDurations[i] > 0
  {
  }

  lemma MarketBoundsWellFormed()
    ensures SunIntensity.min <= SunIntensity.initial <= SunIntensity.max
    ensures EthPrice.min <= EthPrice.initial <= EthPrice.max
  {
  }

  /** Every theme names one of the five music tracks. */
  lemma ThemesNameTracks()
    ensures |TrackNames| == 5
    ensures forall i :: 0 <= i < |Themes| ==> 0 <= Themes[i].trackIndex < |TrackNames|
  {
  }

  /**
   * Every entry has a well-ordered payout range (what `randRange` needs), a
   * stake of 10,000 lightyears, a payout of at least 1,000 and odds strictly
   * between 0 and 1.
   */
  lemma EncountersWellFormed()
    ensures |Encounters| == 15
    ensures forall i :: 0 <= i < |Encounters| ==>
      && 1000 <= Encounters[i].minLy <= Encounters[i].maxLy
      && Encounters[i].lyCost == 10000
      && 0.0 < Encounters[i].winChance < 1.0
      && 0.0 < Encounters[i].chance
  {
  }

  // The running sums of the trigger chances, five entries at a time.

  lemma {:induction false} ChancesUpToFive()
    ensures PrefixChance(Encounters, 5) == 0.18
  {
    assert PrefixChance(Encounters, 1) == 0.04;
    assert PrefixChance(Encounters, 2) == 0.08;
    assert PrefixChance(Encounters, 3) == 0.11;
    assert PrefixChance(Encounters, 4) == 0.15;
    assert PrefixChance(Encounters, 5) == 0.18;
  }

  lemma {:induction false} ChancesUpToTen()
    ensures PrefixChance(Encounters, 10) == 0.35
  {
    ChancesUpToFive();
    assert PrefixChance(Encounters, 6) == 0.21;
    assert PrefixChance(Encounters, 7) == 0.25;
    assert PrefixChance(Encounters, 8) == 0.28;
    assert PrefixChance(Encounters, 9) == 0.31;
    assert PrefixChance(Encounters, 10) == 0.35;
  }

  /** The trigger chances add up to 0.53, so a roll above 0.53 selects no encounter. */
  lemma {:induction false} EncounterChancesTotal()
    ensures TotalChance(Encounters) == 0.53
  {
    ChancesUpToTen();
    assert PrefixChance(Encounters, 11) == 0.38;
    assert PrefixChance(Encounters, 12) == 0.42;
    assert PrefixChance(Encounters, 13) == 0.45;
    assert PrefixChance(Encounters, 14) == 0.49;
    assert PrefixChance(Encounters, 15) == 0.53;
  }
}
