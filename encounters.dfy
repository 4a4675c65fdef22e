/**
 * The encounter engine of js/encounters.js: the cumulative-probability walk
 * over the encounter catalog, the two ways of activating an encounter, and
 * the resolution of the player's decision.
 *
 * The trigger draw, the roll, the fallback draw, the win draw and the reward
 * draw are parameters holding the `Math.random()` values the source draws.
 * Alerts, sounds and log calls are returned as log lines or left out.
 */
module Encounters {
  import opened Wrappers
  import opened Utils
  import opened Config
  import opened State

  /** Encounters need at least this many lightyears to trigger. */
  const ParticipationFloor: int := 10000

  /** A lost encounter still recovers 1000..5000 lightyears. */
  const FailureLyMin: int := 1000
  const FailureLyMax: int := 5000

  // ---------------------------------------------------------------
  // The cumulative walk
  // ---------------------------------------------------------------

  /** The cumulative chance after entry i. */
  function Cumulative(catalog: seq<Encounter>, i: nat): real
    requires i < |catalog|
  {
    PrefixChance(catalog, i + 1)
  }

  /** Entry i is the first whose cumulative chance reaches the roll. */
  predicate FirstCovering(catalog: seq<Encounter>, roll: real, i: nat) {
    && i < |catalog|
    && roll <= Cumulative(catalog, i)
    && forall j :: 0 <= j < i ==> roll > Cumulative(catalog, j)
  }

  /** No cumulative chance reaches the roll. */
  predicate NoneCovering(catalog: seq<Encounter>, roll: real) {
    forall j :: 0 <= j < |catalog| ==> roll > Cumulative(catalog, j)
  }

  /**
   * The walk from entry i on, with `cumulative` the chance accumulated so far:
   * add the entry's chance and stop at the first entry the roll does not exceed.
   */
  function Walk(catalog: seq<Encounter>, roll: real, i: nat, cumulative: real): (r: Option<nat>)
    requires i <= |catalog| && cumulative == PrefixChance(catalog, i)
    requires forall j :: 0 <= j < i ==> roll > Cumulative(catalog, j)
    ensures r.Some? ==> FirstCovering(catalog, roll, r.value)
    ensures r.None? ==> NoneCovering(catalog, roll)
    decreases |catalog| - i
  {
    if i == |catalog| then None
    else
      var next := cumulative + catalog[i].chance;
      if roll <= next then Some(i) else Walk(catalog, roll, i + 1, next)
  }

  /** The entry the roll selects, or None when the roll exceeds every cumulative chance. */
  function SelectEncounter(catalog: seq<Encounter>, roll: real): (r: Option<nat>)
    ensures r.Some? ==> FirstCovering(catalog, roll, r.value)
    ensures r.None? ==> NoneCovering(catalog, roll)
  {
    Walk(catalog, roll, 0, 0.0)
  }

  predicate ChancesNonNegative(catalog: seq<Encounter>) {
    forall i :: 0 <= i < |catalog| ==> catalog[i].chance >= 0.0
  }

  lemma {:induction false} PrefixMonotone(catalog: seq<Encounter>, m: nat, n: nat)
    requires ChancesNonNegative(catalog) && m <= n <= |catalog|
    ensures PrefixChance(catalog, m) <= PrefixChance(catalog, n)
  {
    if m < n {
      PrefixMonotone(catalog, m, n - 1);
    }
  }

  /** The rolls entry i answers to: above the cumulative chance before it, up to the one after it. */
  predicate InInterval(catalog: seq<Encounter>, roll: real, i: nat)
    requires i < |catalog|
  {
    roll <= Cumulative(catalog, i) && (i == 0 || PrefixChance(catalog, i) < roll)
  }

  /**
   * With non-negative chances, entry i is selected exactly for the rolls in
   * (cumulative chance before i, cumulative chance after i].
   */
  lemma SelectionInterval(catalog: seq<Encounter>, roll: real, i: nat)
    requires ChancesNonNegative(catalog) && i < |catalog|
    ensures SelectEncounter(catalog, roll) == Some(i) <==> InInterval(catalog, roll, i)
  {
    var r := SelectEncounter(catalog, roll);
    if InInterval(catalog, roll, i) {
      IntervalIsFirstCovering(catalog, roll, i);
      if r.Some? {
        FirstCoveringUnique(catalog, roll, r.value, i);
      }
    }
    if r == Some(i) && i > 0 {
      assert roll > Cumulative(catalog, i - 1);
    }
  }

  lemma IntervalIsFirstCovering(catalog: seq<Encounter>, roll: real, i: nat)
    requires ChancesNonNegative(catalog) && i < |catalog| && InInterval(catalog, roll, i)
    ensures FirstCovering(catalog, roll, i)
  {
    forall j | 0 <= j < i
      ensures roll > Cumulative(catalog, j)
    {
      PrefixMonotone(catalog, j + 1, i);
    }
  }

  /** At most one entry is the first to cover a roll. */
  lemma FirstCoveringUnique(catalog: seq<Encounter>, roll: real, i: nat, k: nat)
    requires FirstCovering(catalog, roll, i) && FirstCovering(catalog, roll, k)
    ensures i == k
  {
  }

  /** With non-negative chances, a non-empty catalog selects nothing exactly when the roll exceeds the total. */
  lemma NothingSelectedBeyondTotal(catalog: seq<Encounter>, roll: real)
    requires ChancesNonNegative(catalog) && |catalog| > 0
    ensures SelectEncounter(catalog, roll).None? <==> roll > TotalChance(catalog)
  {
    if roll > TotalChance(catalog) {
      forall j | 0 <= j < |catalog|
        ensures roll > Cumulative(catalog, j)
      {
        PrefixMonotone(catalog, j + 1, |catalog|);
      }
    }
    if SelectEncounter(catalog, roll).None? {
      assert roll > Cumulative(catalog, |catalog| - 1);
    }
  }

  /** In the game's catalog, rolls up to 0.53 select an encounter and rolls above select none. */
  lemma CatalogSelection(roll: real)
    ensures SelectEncounter(Encounters, roll).None? <==> roll > 0.53
  {
    EncountersWellFormed();
    EncounterChancesTotal();
    NothingSelectedBeyondTotal(Encounters, roll);
  }

  /** Chances [0.5, 0.3]: rolls 0.4, 0.7 and 0.9 select entry 0, entry 1 and nothing. */
  lemma WalkExample()
    ensures var a := Encounter("A", 0.5, 10000, 0.5, Gain, 1000, 2000, "", "", "");
            var b := Encounter("B", 0.3, 10000, 0.5, Loss, 1000, 2000, "", "", "");
            && SelectEncounter([a, b], 0.4) == Some(0)
            && SelectEncounter([a, b], 0.7) == Some(1)
            && SelectEncounter([a, b], 0.9) == None
  {
    var a := Encounter("A", 0.5, 10000, 0.5, Gain, 1000, 2000, "", "", "");
    var b := Encounter("B", 0.3, 10000, 0.5, Loss, 1000, 2000, "", "", "");
    assert PrefixChance([a, b], 1) == 0.5;
    assert PrefixChance([a, b], 2) == 0.8;
  }

  /** `ENCOUNTERS[Math.floor(Math.random() * ENCOUNTERS.length)]` */
  function FallbackIndex(draw: real): (i: nat)
    requires 0.0 <= draw < 1.0
    ensures i < |Encounters|
  {
    ScaledDrawBelow(draw, |Encounters|);
    (draw * |Encounters| as real).Floor
  }

  // ---------------------------------------------------------------
  // Activation
  // ---------------------------------------------------------------

  /**
   * The encounter a trigger activates: none below the participation floor or
   * when the trigger draw exceeds 0.75, otherwise the entry the roll selects.
   */
  function Triggered(lightyears: int, triggerDraw: real, roll: real): Option<Encounter> {
    if lightyears < ParticipationFloor || triggerDraw > EncounterTriggerChance then None
    else
      match SelectEncounter(Encounters, roll)
      case None => None
      case Some(i) => Some(Encounters[i])
  }

  /**
   * A trigger activates a catalog encounter exactly when the balance is at
   * least 10,000, the trigger draw at most 0.75 and the roll at most 0.53.
   */
  lemma TriggeredSpec(lightyears: int, triggerDraw: real, roll: real)
    ensures Triggered(lightyears, triggerDraw, roll).Some? <==>
      lightyears >= ParticipationFloor && triggerDraw <= EncounterTriggerChance && roll <= 0.53
    ensures Triggered(lightyears, triggerDraw, roll).Some? ==> Triggered(lightyears, triggerDraw, roll).value in Encounters
  {
    CatalogSelection(roll);
  }

  /** The alert logged when an encounter is activated. */
  function AlertLines(r: Option<Encounter>): seq<LogLine> {
    if r.Some? then [LogLine(EncounterAlert(r.value.name), Error)] else []
  }

  // ---------------------------------------------------------------
  // Resolution of a decision
  // ---------------------------------------------------------------

  /** What `handleEncounterDecision` returns when an encounter was active. */
  datatype Decision =
    | Avoided
    | InsufficientLy
    | Resolved(success: bool, lyGain: int, cost: int, netChange: int)

  /** The outcome of risking encounter e: won iff the win draw is below winChance. */
  function Outcome(e: Encounter, winDraw: real, rewardDraw: real): (d: Decision)
    requires 0.0 <= rewardDraw < 1.0
    ensures d.Resolved? && d.cost == e.lyCost && d.netChange == d.lyGain - d.cost
    ensures d.success <==> winDraw < e.winChance
  {
    var success := winDraw < e.winChance;
    var lyGain := if success then RandRange(e.minLy, e.maxLy, rewardDraw) else RandRange(FailureLyMin, FailureLyMax, rewardDraw);
    Resolved(success, lyGain, e.lyCost, lyGain - e.lyCost)
  }

  /** The log line of a resolved decision: success-coloured only for a win with a non-negative net. */
  function OutcomeLine(e: Encounter, d: Decision): LogLine
    requires d.Resolved?
  {
    if d.success then LogLine(EncounterWon(e.name, d.lyGain, d.netChange), if d.netChange >= 0 then Success else Error)
    else LogLine(EncounterLost(e.name, d.lyGain, d.netChange), Error)
  }

  /**
   * For a catalog entry: a win pays minLy..maxLy, a loss 1000..5000; and when
   * the balance covered the cost, the new balance max(0, old + net) is at
   * least the payout, so the floor at 0 never applies.
   */
  lemma OutcomeBounds(e: Encounter, winDraw: real, rewardDraw: real, balance: int)
    requires e in Encounters && 0.0 <= rewardDraw < 1.0 && balance >= e.lyCost
    ensures var d := Outcome(e, winDraw, rewardDraw);
      && (d.success ==> e.minLy <= d.lyGain <= e.maxLy)
      && (!d.success ==> FailureLyMin <= d.lyGain <= FailureLyMax)
      && (!d.success ==> d.netChange < 0)
      && balance + d.netChange >= d.lyGain > 0
  {
    EncountersWellFormed();
  }

  /**
   * Encounter payouts are not capped at WIN_DISTANCE: winning the Derelict
   * Freighter at 999,000 lightyears leaves the balance above 1,000,000.
   */
  lemma PayoutNotCapped()
    ensures var d := Outcome(DerelictFreighter, 0.0, 0.0);
            d.success && 999000 + d.netChange > WinDistance
  {
    assert RandRange(DerelictFreighter.minLy, DerelictFreighter.maxLy, 0.0) == 15000;
  }

  // ---------------------------------------------------------------
  // EncounterManager
  // ---------------------------------------------------------------

  class EncounterManager {
    const gameState: GameState
    const uiState: UIState

    constructor (gameState: GameState, uiState: UIState)
      ensures this.gameState == gameState && this.uiState == uiState
    {
      this.gameState := gameState;
      this.uiState := uiState;
    }

    /**
     * `triggerRandomEncounter`: the encounter Triggered picks, if any, becomes
     * the active encounter and an alert is logged; otherwise nothing changes.
     */
    method TriggerRandomEncounter(triggerDraw: real, roll: real) returns (r: Option<Encounter>, lines: seq<LogLine>)
      requires uiState.Valid()
      modifies uiState`activeEncounter
      ensures uiState.Valid()
      ensures r == Triggered(gameState.lightyears, triggerDraw, roll)
      ensures uiState.activeEncounter == if r.Some? then r else old(uiState.activeEncounter)
      ensures lines == AlertLines(r)
    {
      if gameState.lightyears < ParticipationFloor {
        return None, [];
      }
      if triggerDraw > EncounterTriggerChance {
        return None, [];
      }
      var picked := SelectEncounter(Encounters, roll);
      if picked.None? {
        return None, [];
      }
      var e := Encounters[picked.value];
      uiState.activeEncounter := Some(e);
      return Some(e), [LogLine(EncounterAlert(e.name), Error)];
    }

    /**
     * `forceTriggerEncounter`: the entry the roll selects or, when there is none,
     * the entry the fallback draw picks uniformly; it always becomes active.
     */
    method ForceTriggerEncounter(roll: real, fallbackDraw: real) returns (e: Encounter, lines: seq<LogLine>)
      requires uiState.Valid() && 0.0 <= fallbackDraw < 1.0
      modifies uiState`activeEncounter
      ensures uiState.Valid()
      ensures e in Encounters && uiState.activeEncounter == Some(e)
      ensures e == match SelectEncounter(Encounters, roll)
                   case Some(i) => Encounters[i]
                   case None => Encounters[FallbackIndex(fallbackDraw)]
      ensures lines == [LogLine(EncounterAlert(e.name), Error)]
    {
      var picked := SelectEncounter(Encounters, roll);
      if picked.Some? {
        e := Encounters[picked.value];
      } else {
        e := Encounters[FallbackIndex(fallbackDraw)];
      }
      uiState.activeEncounter := Some(e);
      lines := [LogLine(EncounterAlert(e.name), Error)];
    }

    /**
     * `handleEncounterDecision`: with no active encounter, nothing; declining
     * logs and clears it; risking without enough lightyears refuses; otherwise
     * the Outcome is applied as lightyears := max(0, lightyears + net) and the
     * encounter's success or failure text is remembered. The active encounter
     * is cleared on every branch.
     */
    method HandleEncounterDecision(riskIt: bool, winDraw: real, rewardDraw: real)
      returns (r: Option<Decision>, lines: seq<LogLine>)
      requires uiState.Valid() && 0.0 <= rewardDraw < 1.0
      modifies uiState`activeEncounter, uiState`lastEncounterResult, gameState`lightyears
      ensures uiState.Valid() && uiState.activeEncounter == None
      ensures old(uiState.activeEncounter).None? ==>
        r == None && lines == [] && gameState.lightyears == old(gameState.lightyears)
        && uiState.lastEncounterResult == old(uiState.lastEncounterResult)
      ensures old(uiState.activeEncounter).Some? && !riskIt ==>
        var e := old(uiState.activeEncounter).value;
        r == Some(Avoided) && lines == [LogLine(EncounterAvoided(e.name), Info)]
        && gameState.lightyears == old(gameState.lightyears)
        && uiState.lastEncounterResult == old(uiState.lastEncounterResult)
      ensures old(uiState.activeEncounter).Some? && riskIt
              && old(gameState.lightyears) < old(uiState.activeEncounter).value.lyCost ==>
        var e := old(uiState.activeEncounter).value;
        r == Some(InsufficientLy) && lines == [LogLine(EncounterUnaffordable(e.name), Error)]
        && gameState.lightyears == old(gameState.lightyears)
        && uiState.lastEncounterResult == old(uiState.lastEncounterResult)
      ensures old(uiState.activeEncounter).Some? && riskIt
              && old(gameState.lightyears) >= old(uiState.activeEncounter).value.lyCost ==>
        var e := old(uiState.activeEncounter).value;
        var d := Outcome(e, winDraw, rewardDraw);
        && r == Some(d)
        && gameState.lightyears == Max(0, old(gameState.lightyears) + d.netChange)
        && uiState.lastEncounterResult == Some(if d.success then e.successDescription else e.failureDescription)
        && lines == [OutcomeLine(e, d)]
    {
      if uiState.activeEncounter.None? {
        return None, [];
      }
      var e := uiState.activeEncounter.value;
      if !riskIt {
        uiState.activeEncounter := None;
        return Some(Avoided), [LogLine(EncounterAvoided(e.name), Info)];
      }
      if gameState.lightyears < e.lyCost {
        uiState.activeEncounter := None;
        return Some(InsufficientLy), [LogLine(EncounterUnaffordable(e.name), Error)];
      }
      var d := Outcome(e, winDraw, rewardDraw);
      uiState.lastEncounterResult := Some(if d.success then e.successDescription else e.failureDescription);
      gameState.lightyears := Max(0, gameState.lightyears + d.netChange);
      uiState.activeEncounter := None;
      return Some(d), [OutcomeLine(e, d)];
    }
  }

  function Max(a: int, b: int): int { if a >= b then a else b }
}
