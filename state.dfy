/**
 * The game state of js/state.js: the resource balances, the eight-slot
 * inventory and its mining/decay cycle, map progression and the log
 * (GameState); the two fluctuating market values (MarketState); and the
 * transient UI-side state the rules touch (UIState).
 *
 * Every `Math.random()` the source calls is a parameter `draw`/`draws`
 * holding the drawn real in [0, 1).
 */
module State {
  import opened Wrappers
  import opened Utils
  import opened Config

  // ---------------------------------------------------------------
  // Inventory items and slots
  // ---------------------------------------------------------------

  /** An inventory module; `id` stands for the opaque `crypto.randomUUID()` value. */
  datatype Item =
    | Sail(id: string, power: int, durability: int, isBroken: bool)
    | Battery(id: string, rate: real)

  /** One inventory slot: `null` or an item. */
  datatype Slot = Empty | Occupied(item: Item)

  predicate IsSail(s: Slot) { s.Occupied? && s.item.Sail? }

  predicate IsBattery(s: Slot) { s.Occupied? && s.item.Battery? }

  /** A freshly crafted sail. */
  function NewSail(id: string, power: int): Item {
    Sail(id, power, SailMaxDurability, false)
  }

  // ---------------------------------------------------------------
  // Log lines
  // ---------------------------------------------------------------

  /** The `type` of a log entry. */
  datatype LogKind = Info | Success | Error

  /** A stored log entry; `timestamp` stands for `toLocaleTimeString()`. */
  datatype LogEntry = LogEntry(timestamp: string, message: string, kind: LogKind)

  const MaxLogEntries: int := 50
  const InitialLogMessage: string := "The Outrider is ready for warp..."

  /** The lines the rules send to the player's log, before they are rendered as text. */
  datatype Message =
    | SailBroken(power: int)
    | Travelled(lyGain: int, totalPower: int)
    | AllSailsBroken
    | EncounterAlert(name: string)
    | EncounterAvoided(name: string)
    | EncounterUnaffordable(name: string)
    | EncounterWon(name: string, lyGain: int, net: int)
    | EncounterLost(name: string, lyGain: int, net: int)
    | SailCrafted(power: int)
    | BatteryRefused
    | BatteryCrafted(rate: real, cost: int)
    | Jettisoned(item: Item, slotNumber: int)
    | SailsDestroyed
    | BlackholeRefused
    | WarpedOut(score: int)
    | LostInBlackhole
    | PoweredUp

  datatype LogLine = LogLine(message: Message, kind: LogKind)

  /** `[entry, ...log].slice(0, 50)` */
  function PrependCapped(entry: LogEntry, log: seq<LogEntry>): (r: seq<LogEntry>)
    ensures |r| == if |log| < MaxLogEntries then |log| + 1 else MaxLogEntries
    ensures r[0] == entry
    ensures forall i :: 1 <= i < |r| ==> r[i] == log[i - 1]
  {
    var all := [entry] + log;
    if |all| <= MaxLogEntries then all else all[..MaxLogEntries]
  }

  // ---------------------------------------------------------------
  // Reference definitions over the slot sequence
  // ---------------------------------------------------------------

  /** `findIndex(s => s === null)`: the lowest empty slot, or -1 when there is none. */
  function FirstEmpty(s: seq<Slot>): (r: int)
    ensures -1 <= r < |s|
    ensures r == -1 <==> forall i :: 0 <= i < |s| ==> s[i].Occupied?
    ensures r >= 0 ==> s[r] == Empty && forall i :: 0 <= i < r ==> s[i].Occupied?
  {
    if |s| == 0 then -1
    else if s[0] == Empty then 0
    else
      var k := FirstEmpty(s[1..]);
      if k == -1 then -1 else k + 1
  }

  function CountSails(s: seq<Slot>): nat {
    if |s| == 0 then 0 else CountSails(s[..|s| - 1]) + (if IsSail(s[|s| - 1]) then 1 else 0)
  }

  function CountBatteries(s: seq<Slot>): nat {
    if |s| == 0 then 0 else CountBatteries(s[..|s| - 1]) + (if IsBattery(s[|s| - 1]) then 1 else 0)
  }

  /** What one slot adds to the propulsion power: a sail's power while its durability is positive. */
  function Contribution(s: Slot): int {
    if IsSail(s) && s.item.durability > 0 then s.item.power else 0
  }

  /** The total power of the working sails. */
  function Power(s: seq<Slot>): int {
    if |s| == 0 then 0 else Power(s[..|s| - 1]) + Contribution(s[|s| - 1])
  }

  /** The photons per second of the batteries. */
  function RateSum(s: seq<Slot>): real {
    if |s| == 0 then 0.0
    else RateSum(s[..|s| - 1]) + (if IsBattery(s[|s| - 1]) then s[|s| - 1].item.rate else 0.0)
  }

  /** Without a battery there is no photon income. */
  lemma {:induction false} NoBatteriesNoRate(s: seq<Slot>)
    ensures CountBatteries(s) == 0 ==> RateSum(s) == 0.0
  {
    if |s| > 0 {
      NoBatteriesNoRate(s[..|s| - 1]);
    }
  }

  predicate AnyWorkingSail(s: seq<Slot>) {
    exists i :: 0 <= i < |s| && IsSail(s[i]) && s[i].item.durability > 0
  }

  /** `slots.map(slot => slot is a battery ? slot : null)` */
  function KeepBatteries(s: seq<Slot>): seq<Slot> {
    seq(|s|, i requires 0 <= i < |s| => if IsBattery(s[i]) then s[i] else Empty)
  }

  /** Destroying the sails keeps every battery in its slot, empties every other slot, and is idempotent. */
  lemma KeepBatteriesSpec(s: seq<Slot>)
    ensures |KeepBatteries(s)| == |s|
    ensures forall i :: 0 <= i < |s| && IsBattery(s[i]) ==> KeepBatteries(s)[i] == s[i]
    ensures forall i :: 0 <= i < |s| && !IsBattery(s[i]) ==> KeepBatteries(s)[i] == Empty
    ensures CountSails(KeepBatteries(s)) == 0
    ensures CountBatteries(KeepBatteries(s)) == CountBatteries(s)
    ensures KeepBatteries(KeepBatteries(s)) == KeepBatteries(s)
  {
    NoSailsCounted(KeepBatteries(s));
    BatteriesKeptCounted(s);
  }

  /** Destroying the sails leaves no propulsion power and keeps the batteries' photon income. */
  lemma {:induction false} DestroyingSailsKeepsIncome(s: seq<Slot>)
    ensures Power(KeepBatteries(s)) == 0
    ensures RateSum(KeepBatteries(s)) == RateSum(s)
  {
    if |s| > 0 {
      assert KeepBatteries(s)[..|s| - 1] == KeepBatteries(s[..|s| - 1]);
      DestroyingSailsKeepsIncome(s[..|s| - 1]);
    }
  }

  lemma {:induction false} NoSailsCounted(s: seq<Slot>)
    requires forall i :: 0 <= i < |s| ==> !IsSail(s[i])
    ensures CountSails(s) == 0
  {
    if |s| > 0 {
      NoSailsCounted(s[..|s| - 1]);
    }
  }

  lemma {:induction false} BatteriesKeptCounted(s: seq<Slot>)
    ensures CountBatteries(KeepBatteries(s)) == CountBatteries(s)
  {
    if |s| > 0 {
      assert KeepBatteries(s)[..|s| - 1] == KeepBatteries(s[..|s| - 1]);
      BatteriesKeptCounted(s[..|s| - 1]);
    }
  }

  // ---------------------------------------------------------------
  // The mining/decay cycle, slot by slot
  // ---------------------------------------------------------------

  predicate ValidDraws(d: seq<real>) {
    forall i :: 0 <= i < |d| ==> 0.0 <= d[i] < 1.0
  }

  /**
   * One slot through `processMiningCycle`: a sail with positive durability
   * loses `randRange(1, 3)`; a sail whose durability is then not positive is
   * marked broken. Batteries and empty slots pass unchanged.
   */
  function DecaySlot(s: Slot, draw: real): Slot
    requires 0.0 <= draw < 1.0
  {
    match s
    case Occupied(Sail(id, power, durability, isBroken)) =>
      var after := if durability > 0 then durability - RandRange(1, 3, draw) else durability;
      Occupied(Sail(id, power, after, if after > 0 then isBroken else true))
    case _ => s
  }

  /** The slot's sail breaks in this cycle (and is reported once). */
  predicate Breaks(s: Slot, draw: real)
    requires 0.0 <= draw < 1.0
  {
    IsSail(s) && !s.item.isBroken && DecaySlot(s, draw).item.durability <= 0
  }

  function Mined(s: seq<Slot>, draws: seq<real>): seq<Slot>
    requires |draws| == |s| && ValidDraws(draws)
  {
    seq(|s|, i requires 0 <= i < |s| => DecaySlot(s[i], draws[i]))
  }

  /** The "has broken down" lines of one cycle, in slot order. */
  function BreakLines(s: seq<Slot>, draws: seq<real>): seq<LogLine>
    requires |draws| == |s| && ValidDraws(draws)
  {
    if |s| == 0 then []
    else
      var n := |s| - 1;
      BreakLines(s[..n], draws[..n])
        + (if Breaks(s[n], draws[n]) then [LogLine(SailBroken(s[n].item.power), Error)] else [])
  }

  /** The closing line of a cycle: the distance travelled, or the warning at js/state.js:179. */
  function CycleSummary(lyGain: int, totalPower: int, after: seq<Slot>): seq<LogLine> {
    if lyGain > 0 then [LogLine(Travelled(lyGain, totalPower), Success)]
    else if AnyWorkingSail(after) && totalPower == 0 then [LogLine(AllSailsBroken, Error)]
    else []
  }

  /**
   * Decay of one slot: durability drops by 1 to 3 only while positive, so it
   * never increases; a sail is broken afterwards exactly when it was already
   * broken or its durability is no longer positive; id and power are kept;
   * anything that is not a sail is untouched.
   */
  lemma DecaySlotSpec(s: Slot, draw: real)
    requires 0.0 <= draw < 1.0
    ensures !IsSail(s) ==> DecaySlot(s, draw) == s
    ensures IsSail(s) ==>
      var t := DecaySlot(s, draw).item;
      && IsSail(DecaySlot(s, draw))
      && t.id == s.item.id && t.power == s.item.power
      && t.durability <= s.item.durability
      && (s.item.durability > 0 ==> s.item.durability - 3 <= t.durability <= s.item.durability - 1)
      && (s.item.durability <= 0 ==> t.durability == s.item.durability)
      && (t.isBroken <==> s.item.isBroken || t.durability <= 0)
  {
  }

  /** A sail that broke in one cycle is not reported again in the next. */
  lemma BrokenReportedOnce(s: Slot, first: real, second: real)
    requires 0.0 <= first < 1.0 && 0.0 <= second < 1.0
    requires Breaks(s, first)
    ensures DecaySlot(s, first).item.isBroken
    ensures !Breaks(DecaySlot(s, first), second)
  {
  }

  /** Sail durabilities stay within [-2, 100] through any number of cycles. */
  predicate DurabilitiesInRange(s: seq<Slot>) {
    forall i :: 0 <= i < |s| && IsSail(s[i]) ==> -2 <= s[i].item.durability <= SailMaxDurability
  }

  lemma MiningKeepsDurabilityRange(s: seq<Slot>, draws: seq<real>)
    requires |draws| == |s| && ValidDraws(draws)
    requires DurabilitiesInRange(s)
    ensures DurabilitiesInRange(Mined(s, draws))
  {
  }

  predicate SailPowersPositive(s: seq<Slot>) {
    forall i :: 0 <= i < |s| && IsSail(s[i]) ==> s[i].item.power >= 1
  }

  /** With every sail's power at least 1, any working sail makes the total power positive. */
  lemma {:induction false} WorkingSailGivesPower(s: seq<Slot>)
    requires SailPowersPositive(s) && AnyWorkingSail(s)
    ensures Power(s) >= 1
  {
    var n := |s| - 1;
    PowerNonNegative(s[..n]);
    if !(IsSail(s[n]) && s[n].item.durability > 0) {
      var i :| 0 <= i < |s| && IsSail(s[i]) && s[i].item.durability > 0;
      assert s[..n][i] == s[i];
      WorkingSailGivesPower(s[..n]);
    }
  }

  lemma {:induction false} PowerNonNegative(s: seq<Slot>)
    requires SailPowersPositive(s)
    ensures Power(s) >= 0
  {
    if |s| > 0 {
      PowerNonNegative(s[..|s| - 1]);
    }
  }

  /**
   * The "all functioning sails have broken down" warning (js/state.js:179)
   * cannot fire when every sail has power at least 1: a working sail after
   * the cycle always makes the total power positive.
   */
  lemma AllBrokenWarningUnreachable(s: seq<Slot>, draws: seq<real>, gainDraw: real)
    requires |draws| == |s| && ValidDraws(draws) && 0.0 <= gainDraw < 1.0
    requires SailPowersPositive(s)
    ensures var after := Mined(s, draws);
            var gain := Power(after) * RandRange(5, 15, gainDraw);
            CycleSummary(gain, Power(after), after) != [LogLine(AllSailsBroken, Error)]
  {
    var after := Mined(s, draws);
    assert SailPowersPositive(after);
    if AnyWorkingSail(after) {
      WorkingSailGivesPower(after);
    }
  }

  /** The distance of a cycle is the total power times a factor in [5, 15]. */
  lemma MiningGainRange(totalPower: int, gainDraw: real)
    requires totalPower >= 0 && 0.0 <= gainDraw < 1.0
    ensures 5 * totalPower <= totalPower * RandRange(5, 15, gainDraw) <= 15 * totalPower
  {
    var k := RandRange(5, 15, gainDraw);
    assert totalPower * k - 5 * totalPower == totalPower * (k - 5);
    assert 15 * totalPower - totalPower * k == totalPower * (15 - k);
  }

  // ---------------------------------------------------------------
  // GameState
  // ---------------------------------------------------------------

  class GameState {
    var photons: real
    var lightyears: int
    var warrants: nat
    var hasWon: bool
    var maxLightyears: int
    var slots: array<Slot>
    var log: seq<LogEntry>
    var timestamp: int       // `Date.now()` at the last reset
    var mapTimer: int        // seconds left on the current map

    ghost predicate Valid()
      reads this
    {
      slots.Length == SailSlots && |log| <= MaxLogEntries && mapTimer >= 0
    }

    /** The state `reset()` produces, with `now` and `clock` for the two readings of the clock. */
    ghost predicate Initial(now: int, clock: string)
      reads this, slots
    {
      && photons == 250.0
      && lightyears == 0 && warrants == 0 && !hasWon
      && maxLightyears == WinDistance
      && slots[..] == seq(SailSlots, _ => Empty)
      && log == [LogEntry(clock, InitialLogMessage, Info)]
      && timestamp == now
      && mapTimer == MapDurations[0]
    }

    constructor (now: int, clock: string)
      ensures Valid() && fresh(slots) && Initial(now, clock)
    {
      slots := new Slot[SailSlots](_ => Empty);
      new;
      Reset(now, clock);
    }

    method Reset(now: int, clock: string)
      modifies this
      ensures Valid() && fresh(slots) && Initial(now, clock)
    {
      photons := 250.0;
      lightyears := 0;
      warrants := 0;
      hasWon := false;
      maxLightyears := WinDistance;
      slots := new Slot[SailSlots](_ => Empty);
      log := [LogEntry(clock, InitialLogMessage, Info)];
      timestamp := now;
      mapTimer := MapDurations[0];
    }

    // Photons

    method AddPhotons(amount: real)
      modifies this`photons
      ensures photons == old(photons) + amount
    {
      photons := photons + amount;
    }

    /** Withdraws `amount` exactly when the balance covers it. */
    method RemovePhotons(amount: real) returns (ok: bool)
      modifies this`photons
      ensures ok <==> old(photons) >= amount
      ensures photons == if ok then old(photons) - amount else old(photons)
    {
      if photons >= amount {
        photons := photons - amount;
        return true;
      }
      return false;
    }

    /** `getTotalPhotonRate()`: the batteries' rates summed; nothing without a battery. */
    function TotalPhotonRate(): (r: real)
      reads this, slots
      ensures CountBatteries(slots[..]) == 0 ==> r == 0.0
    {
      NoBatteriesNoRate(slots[..]);
      RateSum(slots[..])
    }

    // Lightyears

    /** Adds `amount`, capped at WIN_DISTANCE; reports whether the cap is reached. */
    method AddLightyears(amount: int) returns (reached: bool)
      modifies this`lightyears
      ensures lightyears == if old(lightyears) + amount < WinDistance then old(lightyears) + amount else WinDistance
      ensures lightyears <= WinDistance
      ensures reached <==> lightyears == WinDistance
    {
      lightyears := if lightyears + amount < WinDistance then lightyears + amount else WinDistance;
      reached := lightyears >= WinDistance;
    }

    /** Withdraws `amount` exactly when the balance covers it. */
    method RemoveLightyears(amount: int) returns (ok: bool)
      modifies this`lightyears
      ensures ok <==> old(lightyears) >= amount
      ensures lightyears == if ok then old(lightyears) - amount else old(lightyears)
    {
      if lightyears >= amount {
        lightyears := lightyears - amount;
        return true;
      }
      return false;
    }

    // Slots

    /** `getEmptySlotIndex()` */
    function EmptySlotIndex(): (r: int)
      reads this, slots
      ensures -1 <= r < slots.Length
      ensures r == -1 <==> forall i :: 0 <= i < slots.Length ==> slots[i].Occupied?
      ensures r >= 0 ==> slots[r] == Empty && forall i :: 0 <= i < r ==> slots[i].Occupied?
    {
      FirstEmpty(slots[..])
    }

    /** `hasEmptySlot()`: some slot is empty, which is when `getEmptySlotIndex()` finds one. */
    function HasEmptySlot(): (r: bool)
      reads this, slots
      ensures r <==> exists i :: 0 <= i < slots.Length && slots[i] == Empty
      ensures r <==> EmptySlotIndex() != -1
    {
      exists i :: 0 <= i < slots.Length && slots[i] == Empty
    }

    /** Puts a new sail in the lowest empty slot; `None` and no change when the inventory is full. */
    method AddSail(power: int, id: string) returns (r: Option<Item>)
      modifies slots
      ensures var k := FirstEmpty(old(slots[..]));
        if k == -1 then r == None && slots[..] == old(slots[..])
        else r == Some(NewSail(id, power)) && slots[..] == old(slots[..])[k := Occupied(NewSail(id, power))]
    {
      var index := FirstEmpty(slots[..]);
      if index == -1 {
        return None;
      }
      var sail := NewSail(id, power);
      slots[index] := Occupied(sail);
      return Some(sail);
    }

    /** Puts a new battery in the lowest empty slot; `None` and no change when the inventory is full. */
    method AddBattery(rate: real, id: string) returns (r: Option<Item>)
      modifies slots
      ensures var k := FirstEmpty(old(slots[..]));
        if k == -1 then r == None && slots[..] == old(slots[..])
        else r == Some(Battery(id, rate)) && slots[..] == old(slots[..])[k := Occupied(Battery(id, rate))]
    {
      var index := FirstEmpty(slots[..]);
      if index == -1 {
        return None;
      }
      var battery := Battery(id, rate);
      slots[index] := Occupied(battery);
      return Some(battery);
    }

    /** Empties slot `index` and returns its item; `None` and no change for a bad index or an empty slot. */
    method RemoveSlot(index: int) returns (r: Option<Item>)
      modifies slots
      ensures 0 <= index < slots.Length && old(slots[..])[index].Occupied? ==>
        r == Some(old(slots[..])[index].item) && slots[..] == old(slots[..])[index := Empty]
      ensures !(0 <= index < slots.Length && old(slots[..])[index].Occupied?) ==>
        r == None && slots[..] == old(slots[..])
    {
      if 0 <= index < slots.Length && slots[index].Occupied? {
        var removed := slots[index].item;
        slots[index] := Empty;
        return Some(removed);
      }
      return None;
    }

    /** Empties every slot that does not hold a battery. */
    method DestroyAllSails()
      modifies slots
      ensures slots[..] == KeepBatteries(old(slots[..]))
    {
      var i := 0;
      while i < slots.Length
        invariant 0 <= i <= slots.Length
        invariant forall j :: 0 <= j < i ==> slots[j] == if IsBattery(old(slots[j])) then old(slots[j]) else Empty
        invariant forall j :: i <= j < slots.Length ==> slots[j] == old(slots[j])
      {
        if !IsBattery(slots[i]) {
          slots[i] := Empty;
        }
        i := i + 1;
      }
    }

    /** `getSlotCounts()`: the sail and battery counts, the working sails' power and the batteries' rate. */
    method SlotCounts() returns (sailCount: nat, batteryCount: nat, totalPower: int, totalPhotonRate: real)
      ensures sailCount == CountSails(slots[..]) && batteryCount == CountBatteries(slots[..])
      ensures totalPower == Power(slots[..]) && totalPhotonRate == RateSum(slots[..])
    {
      sailCount, batteryCount, totalPower, totalPhotonRate := 0, 0, 0, 0.0;
      var i := 0;
      while i < slots.Length
        invariant 0 <= i <= slots.Length
        invariant sailCount == CountSails(slots[..i]) && batteryCount == CountBatteries(slots[..i])
        invariant totalPower == Power(slots[..i]) && totalPhotonRate == RateSum(slots[..i])
      {
        assert slots[..i + 1][..i] == slots[..i];
        var slot := slots[i];
        if slot.Occupied? {
          match slot.item
          case Sail(_, power, durability, _) =>
            sailCount := sailCount + 1;
            if durability > 0 {
              totalPower := totalPower + power;
            }
          case Battery(_, rate) =>
            batteryCount := batteryCount + 1;
            totalPhotonRate := totalPhotonRate + rate;
        }
        i := i + 1;
      }
      assert slots[..i] == slots[..];
    }

    // Decay and mining

    /**
     * `processMiningCycle`: every slot goes through DecaySlot (draws[i] is the
     * draw for slot i), the power of the still-working sails is summed, and the
     * distance is that power times randRange(5, 15). Returns the lines sent to
     * the log callback.
     */
    method ProcessMiningCycle(draws: seq<real>, gainDraw: real)
      returns (lyGain: int, totalPower: int, lines: seq<LogLine>)
      requires |draws| == slots.Length && ValidDraws(draws) && 0.0 <= gainDraw < 1.0
      modifies slots
      ensures slots[..] == Mined(old(slots[..]), draws)
      ensures totalPower == Power(slots[..])
      ensures lyGain == totalPower * RandRange(5, 15, gainDraw)
      ensures lines == BreakLines(old(slots[..]), draws) + CycleSummary(lyGain, totalPower, slots[..])
    {
      totalPower := 0;
      lines := [];
      var i := 0;
      while i < slots.Length
        invariant 0 <= i <= slots.Length
        invariant forall j :: 0 <= j < i ==> slots[j] == DecaySlot(old(slots[j]), draws[j])
        invariant forall j :: i <= j < slots.Length ==> slots[j] == old(slots[j])
        invariant totalPower == Power(slots[..i])
        invariant lines == BreakLines(old(slots[..])[..i], draws[..i])
      {
        var before := slots[i];
        slots[i] := DecaySlot(before, draws[i]);
        if Breaks(before, draws[i]) {
          lines := lines + [LogLine(SailBroken(before.item.power), Error)];
        }
        assert slots[..i + 1][..i] == slots[..i];
        assert old(slots[..])[..i + 1][..i] == old(slots[..])[..i];
        assert draws[..i + 1][..i] == draws[..i];
        totalPower := totalPower + Contribution(slots[i]);
        i := i + 1;
      }
      assert slots[..] == Mined(old(slots[..]), draws);
      assert slots[..i] == slots[..];
      assert old(slots[..])[..i] == old(slots[..]) && draws[..i] == draws;
      lyGain := totalPower * RandRange(5, 15, gainDraw);
      lines := lines + CycleSummary(lyGain, totalPower, slots[..]);
    }

    // Warrants (map advance)

    /** `claimWarrant()`: the next map starts with no distance, no win and its own timer. */
    method ClaimWarrant()
      requires Valid()
      modifies this`warrants, this`lightyears, this`hasWon, this`mapTimer
      ensures Valid()
      ensures warrants == old(warrants) + 1 && lightyears == 0 && !hasWon
      ensures mapTimer == MapDurations[if warrants < |MapDurations| - 1 then warrants else |MapDurations| - 1]
    {
      warrants := warrants + 1;
      lightyears := 0;
      hasWon := false;
      var nextTimerIndex := if warrants < |MapDurations| - 1 then warrants else |MapDurations| - 1;
      mapTimer := MapDurations[nextTimerIndex];
    }

    // Log

    /** `addLogEntry`: the newest entry first, at most 50 kept. */
    method AddLogEntry(message: string, kind: LogKind, clock: string) returns (entry: LogEntry)
      requires Valid()
      modifies this`log
      ensures Valid()
      ensures entry == LogEntry(clock, message, kind)
      ensures log == PrependCapped(entry, old(log))
    {
      entry := LogEntry(clock, message, kind);
      log := PrependCapped(entry, log);
    }

    // Progress

    /** `getProgressRatio()`: the share of WIN_DISTANCE travelled, in [0, 1] while the balance is. */
    function ProgressRatio(): (ratio: real)
      reads this
      ensures 0 <= lightyears <= WinDistance ==> 0.0 <= ratio <= 1.0
      ensures lightyears == WinDistance ==> ratio == 1.0
    {
      lightyears as real / WinDistance as real
    }

    /** `checkWinCondition()`: true on the first check at or above WIN_DISTANCE, false afterwards until reset. */
    method CheckWinCondition() returns (won: bool)
      modifies this`hasWon
      ensures won <==> lightyears >= WinDistance && !old(hasWon)
      ensures hasWon == (old(hasWon) || won)
    {
      if lightyears >= WinDistance && !hasWon {
        hasWon := true;
        return true;
      }
      return false;
    }
  }

  /** Checking the win twice in a row: the second check never reports a win. */
  method CheckWinTwice(g: GameState) returns (first: bool, second: bool)
    modifies g`hasWon
    ensures first <==> g.lightyears >= WinDistance && !old(g.hasWon)
    ensures !second
    ensures g.hasWon == (old(g.hasWon) || first)
  {
    first := g.CheckWinCondition();
    second := g.CheckWinCondition();
  }

  // ---------------------------------------------------------------
  // MarketState
  // ---------------------------------------------------------------

  /** `calculateSailPower` on a given intensity: max(1, round(sun * 0.001)), rounding halves up. */
  function SailPowerFor(sun: int): (power: int)
    ensures power >= 1
    ensures sun >= 500 ==> power * 1000 - 500 <= sun < power * 1000 + 500
  {
    var rounded := (sun + 500) / 1000;
    if rounded < 1 then 1 else rounded
  }

  /** `calculateBatteryRate` on a given price: price * 0.001 rounded to hundredths, halves up. */
  function BatteryRateFor(price: int): (rate: real)
    ensures price >= 0 ==>
      var h := (price + 5) / 10;
      rate == h as real / 100.0 && h * 10 - 5 <= price < h * 10 + 5
  {
    ((price + 5) / 10) as real / 100.0
  }

  /** Within the market bounds a sail has power 500..690 and a battery a rate in [3, 5]. */
  lemma MarketOutputsInRange(sun: int, price: int)
    requires SunIntensity.min <= sun <= SunIntensity.max
    requires EthPrice.min <= price <= EthPrice.max
    ensures 500 <= SailPowerFor(sun) <= 690
    ensures 3.0 <= BatteryRateFor(price) <= 5.0
  {
  }

  class MarketState {
    var sunIntensity: int
    var ethPrice: int

    /** Both values stay inside their bounds after any number of updates. */
    ghost predicate Valid()
      reads this
    {
      && SunIntensity.min <= sunIntensity <= SunIntensity.max
      && EthPrice.min <= ethPrice <= EthPrice.max
    }

    constructor ()
      ensures Valid() && sunIntensity == SunIntensity.initial && ethPrice == EthPrice.initial
    {
      sunIntensity := SunIntensity.initial;
      ethPrice := EthPrice.initial;
    }

    /** A step of randRange(-2500, 2500), clamped to [500000, 690000]. */
    method UpdateSunIntensity(draw: real) returns (value: int)
      requires Valid() && 0.0 <= draw < 1.0
      modifies this`sunIntensity
      ensures Valid() && value == sunIntensity
      ensures sunIntensity == Clamp(old(sunIntensity) + RandRange(-2500, 2500, draw), SunIntensity.min, SunIntensity.max)
      ensures -2500 <= sunIntensity - old(sunIntensity) <= 2500
    {
      var change := RandRange(-2500, 2500, draw);
      sunIntensity := Clamp(sunIntensity + change, SunIntensity.min, SunIntensity.max);
      return sunIntensity;
    }

    /** A step of randRange(-100, 100), clamped to [3000, 5000]. */
    method UpdateEthPrice(draw: real) returns (value: int)
      requires Valid() && 0.0 <= draw < 1.0
      modifies this`ethPrice
      ensures Valid() && value == ethPrice
      ensures ethPrice == Clamp(old(ethPrice) + RandRange(-100, 100, draw), EthPrice.min, EthPrice.max)
      ensures -100 <= ethPrice - old(ethPrice) <= 100
    {
      var change := RandRange(-100, 100, draw);
      ethPrice := Clamp(ethPrice + change, EthPrice.min, EthPrice.max);
      return ethPrice;
    }

    function CalculateSailPower(): (power: int)
      reads this
      ensures power >= 1
    {
      SailPowerFor(sunIntensity)
    }

    /** `calculateBatteryRate()`: the price in thousands to hundredths, in [3, 5] within the market bounds. */
    function CalculateBatteryRate(): (rate: real)
      reads this
      ensures ethPrice >= 0 ==>
        var h := (ethPrice + 5) / 10;
        rate == h as real / 100.0 && h * 10 - 5 <= ethPrice < h * 10 + 5
      ensures EthPrice.min <= ethPrice <= EthPrice.max ==> 3.0 <= rate <= 5.0
    {
      BatteryRateFor(ethPrice)
    }
  }

  // ---------------------------------------------------------------
  // UIState
  // ---------------------------------------------------------------

  const MaxTrail: int := 100

  function AbsReal(x: real): real { if x < 0.0 then -x else x }

  /** `addShipPosition` on a trail: append when the ship moved more than 2 in x, keep the newest 100. */
  function ExtendTrail(trail: seq<Point>, pos: Point): seq<Point> {
    if |trail| == 0 || AbsReal(trail[|trail| - 1].x - pos.x) > 2.0 then
      var longer := trail + [pos];
      if |longer| > MaxTrail then longer[1..] else longer
    else trail
  }

  /** Neighbouring trail points are more than 2 apart in x. */
  predicate Spread(trail: seq<Point>) {
    forall i :: 0 < i < |trail| ==> AbsReal(trail[i - 1].x - trail[i].x) > 2.0
  }

  /**
   * The trail stays at most 100 long and spread out. When the new position was
   * far enough from the last one it is appended, the earlier points stay in
   * order and only the oldest is dropped once the trail is full; otherwise the
   * trail is unchanged.
   */
  lemma ExtendTrailSpec(trail: seq<Point>, pos: Point)
    requires |trail| <= MaxTrail && Spread(trail)
    ensures var r := ExtendTrail(trail, pos);
      && |r| <= MaxTrail && Spread(r)
      && (|trail| == 0 || AbsReal(trail[|trail| - 1].x - pos.x) > 2.0 ==>
            && |r| == (if |trail| < MaxTrail then |trail| + 1 else MaxTrail)
            && r[|r| - 1] == pos
            && r[..|r| - 1] == trail[|trail| + 1 - |r|..])
      && (|trail| > 0 && AbsReal(trail[|trail| - 1].x - pos.x) <= 2.0 ==> r == trail)
  {
    var r := ExtendTrail(trail, pos);
    if |trail| == 0 || AbsReal(trail[|trail| - 1].x - pos.x) > 2.0 {
      var longer := trail + [pos];
      assert longer[..|longer| - 1] == trail;
      if |longer| > MaxTrail {
        assert r == longer[1..];
        assert r[..|r| - 1] == trail[1..];
      }
    }
  }

  class UIState {
    var currentThemeIndex: int
    var currentTrackIndex: int
    var scannerDisplayIndex: int
    var craftCooldownTimer: int
    var activeEncounter: Option<Encounter>
    var lastEncounterResult: Option<string>
    var pastShipPositions: seq<Point>
    var engineTabInitialized: bool
    var mapTabInitialized: bool

    ghost predicate Valid()
      reads this
    {
      && craftCooldownTimer >= 0
      && |pastShipPositions| <= MaxTrail
      && (activeEncounter.Some? ==> activeEncounter.value in Encounters)
    }

    constructor ()
      ensures Valid()
      ensures currentThemeIndex == 0 && currentTrackIndex == 2 && scannerDisplayIndex == 0
      ensures craftCooldownTimer == 0 && activeEncounter == None && lastEncounterResult == None
      ensures pastShipPositions == [] && !engineTabInitialized && !mapTabInitialized
    {
      currentThemeIndex := 0;
      currentTrackIndex := 2;
      scannerDisplayIndex := 0;
      craftCooldownTimer := 0;
      activeEncounter := None;
      lastEncounterResult := None;
      pastShipPositions := [];
      engineTabInitialized := false;
      mapTabInitialized := false;
    }

    method Reset()
      modifies this`craftCooldownTimer, this`activeEncounter, this`lastEncounterResult, this`pastShipPositions
      ensures Valid()
      ensures craftCooldownTimer == 0 && activeEncounter == None && lastEncounterResult == None
      ensures pastShipPositions == []
    {
      craftCooldownTimer := 0;
      activeEncounter := None;
      lastEncounterResult := None;
      pastShipPositions := [];
    }

    method AddShipPosition(pos: Point)
      requires Valid()
      modifies this`pastShipPositions
      ensures Valid()
      ensures pastShipPositions == ExtendTrail(old(pastShipPositions), pos)
    {
      var n := |pastShipPositions|;
      if n == 0 || AbsReal(pastShipPositions[n - 1].x - pos.x) > 2.0 {
        pastShipPositions := pastShipPositions + [pos];
        if |pastShipPositions| > MaxTrail {
          pastShipPositions := pastShipPositions[1..];
        }
      }
    }

    method ClearShipPositions()
      modifies this`pastShipPositions
      ensures pastShipPositions == []
    {
      pastShipPositions := [];
    }
  }
}
