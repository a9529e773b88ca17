/**
 * What a computer player builds on its turn (the order of preference of
 * Game.ai_build) and what each structure costs. The state changes of
 * building live in the Game class; this module is the choice alone.
 */
module Building {
  import opened Wrappers
  import opened Resources

  /** The structures a player can build, and the choice to build none. */
  datatype Build = Settlement | City | Road | Nothing

  /** What a structure costs; building nothing costs nothing. */
  function CostOf(b: Build): (cost: Bundle)
  {
    match b
    case Settlement => SettlementCost
    case City => CityCost
    case Road => RoadCost
    case Nothing => Empty
  }

  /**
   * The computer player's choice: a settlement if it can pay for one, else
   * a city if it has a settlement to upgrade and can pay for the upgrade,
   * else a road if it can pay for one, else nothing.
   */
  function AiChoice(have: Bundle, hasSettlement: bool): Build
  {
    if have.Covers(SettlementCost) then Settlement
    else if hasSettlement && have.Covers(CityCost) then City
    else if have.Covers(RoadCost) then Road
    else Nothing
  }

  /** The choice is always paid for, and a city is only chosen when there is a settlement to upgrade. */
  lemma ChoiceAffordable(have: Bundle, hasSettlement: bool)
    ensures have.Covers(CostOf(AiChoice(have, hasSettlement)))
    ensures AiChoice(have, hasSettlement) == City ==> hasSettlement
  {
    match AiChoice(have, hasSettlement)
    case Settlement =>
    case City =>
    case Road =>
    case Nothing => assert CostOf(Nothing) == Bundle(0, 0, 0, 0, 0);
  }

  /**
   * Nothing is built exactly when nothing is affordable: no settlement, no
   * road, and no city unless there is no settlement to upgrade. Since whoever
   * can pay for a settlement can pay for a road, this is just "cannot pay for
   * a road, nor for an upgrade it could make".
   */
  lemma NothingIffUnaffordable(have: Bundle, hasSettlement: bool)
    ensures AiChoice(have, hasSettlement) == Nothing
      <==> !have.Covers(RoadCost) && !(hasSettlement && have.Covers(CityCost))
  {
    if have.Covers(SettlementCost) {
      SettlementCoversRoad(have);
    }
  }

  /**
   * The order of preference: a structure is chosen only when every structure
   * before it in the order settlement, city, road is out of reach.
   */
  lemma ChoiceIsFirstAffordable(have: Bundle, hasSettlement: bool)
    ensures AiChoice(have, hasSettlement) == City ==> !have.Covers(SettlementCost)
    ensures AiChoice(have, hasSettlement) == Road ==>
      !have.Covers(SettlementCost) && !(hasSettlement && have.Covers(CityCost))
    ensures have.Covers(SettlementCost) ==> AiChoice(have, hasSettlement) == Settlement
  {
  }

  /**
   * What the human player pays for from the build menu: entry "1" a
   * settlement, "2" a road, "3" a city (offered only to a player with a
   * settlement), each only when affordable; any other entry, or an
   * unaffordable one, pays for nothing.
   */
  function MenuPurchase(entry: string, have: Bundle, hasSettlement: bool): Build
  {
    if entry == "1" && have.Covers(SettlementCost) then Settlement
    else if entry == "2" && have.Covers(RoadCost) then Road
    else if entry == "3" && hasSettlement && have.Covers(CityCost) then City
    else Nothing
  }

  /**
   * Whether a purchase is completed by the hex number the player typed
   * (`typed`, absent when the entry was not a number): a settlement needs a
   * hex of the board, a city one of the player's settlements, a road nothing.
   * The hex index is the typed number less one.
   */
  predicate Completes(purchase: Build, typed: Option<int>, boardSize: nat, settlements: seq<nat>)
  {
    match purchase
    case Settlement => typed.Some? && 0 <= typed.value - 1 < boardSize
    case City => typed.Some? && typed.value - 1 in settlements
    case Road => true
    case Nothing => false
  }

  /**
   * The menu only charges what the player can pay, charges for a city only
   * a player with a settlement, and charges nothing for an unknown entry.
   */
  lemma MenuPurchaseAffordable(entry: string, have: Bundle, hasSettlement: bool)
    ensures have.Covers(CostOf(MenuPurchase(entry, have, hasSettlement)))
    ensures MenuPurchase(entry, have, hasSettlement) == City ==> hasSettlement
    ensures entry !in {"1", "2", "3"} ==> MenuPurchase(entry, have, hasSettlement) == Nothing
  {
    match MenuPurchase(entry, have, hasSettlement)
    case Settlement =>
    case City =>
    case Road =>
    case Nothing => assert CostOf(Nothing) == Bundle(0, 0, 0, 0, 0);
  }
}
