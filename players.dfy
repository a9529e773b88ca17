/** A player of the game: the resource ledger and the structures it has built (class Player). */
module Players {
  import opened Resources
  import opened TradePolicy

  class Player {
    const name: string
    const isHuman: bool
    /** The personality that drives a computer player's trade decisions; Default for the human. */
    const personality: Personality
    var resources: Bundle
    var victoryPoints: nat
    /** Hex indices of the player's settlements, in building order; a hex may repeat. */
    var settlements: seq<nat>
    /** Hex indices of the player's cities, in upgrade order. */
    var cities: seq<nat>
    /** The source's road list only ever holds the string "road", so its length is all it records. */
    var roads: nat

    /**
     * The victory point counter agrees with the structures: one point per
     * settlement and two per city. The source keeps the counter by hand, in
     * step with every build; the build methods preserve this.
     */
    ghost predicate Valid()
      reads this`victoryPoints, this`settlements, this`cities
    {
      victoryPoints == |settlements| + 2 * |cities|
    }

    constructor (name: string, isHuman: bool, personality: Personality)
      ensures this.name == name && this.isHuman == isHuman && this.personality == personality
      ensures resources == Empty && victoryPoints == 0
      ensures settlements == [] && cities == [] && roads == 0
      ensures Valid()
    {
      this.name := name;
      this.isHuman := isHuman;
      this.personality := personality;
      resources := Empty;
      victoryPoints := 0;
      settlements := [];
      cities := [];
      roads := 0;
    }

    /** add_resources: one kind rises by `amount`, every other kind is untouched. */
    method AddResources(r: Resource, amount: nat)
      modifies this`resources
      ensures resources == old(resources).With(r, old(resources).Get(r) + amount)
      ensures resources.Get(r) == old(resources).Get(r) + amount
      ensures forall s :: s != r ==> resources.Get(s) == old(resources).Get(s)
      ensures resources.Total() == old(resources).Total() + amount
    {
      resources := resources.With(r, resources.Get(r) + amount);
      TotalAfterWith(old(resources), r, amount);
    }

    /**
     * spend_resources: all or nothing. A first pass checks every kind of the
     * cost; only when all are covered does a second pass subtract them.
     */
    method SpendResources(cost: Bundle) returns (ok: bool)
      modifies this`resources
      ensures ok == old(resources).Covers(cost)
      ensures ok ==> resources == old(resources).Minus(cost)
      ensures !ok ==> resources == old(resources)
    {
      CoversEach(resources, cost);
      var i := 0;
      while i < |AllResources|
        invariant 0 <= i <= |AllResources|
        invariant forall k :: 0 <= k < i ==> resources.Get(AllResources[k]) >= cost.Get(AllResources[k])
      {
        var r := AllResources[i];
        if resources.Get(r) < cost.Get(r) {
          return false;
        }
        i := i + 1;
      }
      forall r ensures resources.Get(r) >= cost.Get(r) {
        assert AllResources[Position(r)] == r;
      }
      ghost var before := resources;
      i := 0;
      while i < |AllResources|
        invariant 0 <= i <= |AllResources|
        invariant forall k :: 0 <= k < |AllResources| ==>
          resources.Get(AllResources[k])
            == if k < i then before.Get(AllResources[k]) - cost.Get(AllResources[k]) else before.Get(AllResources[k])
      {
        var r := AllResources[i];
        resources := resources.With(r, resources.Get(r) - cost.Get(r));
        i := i + 1;
      }
      forall r ensures resources.Get(r) == before.Minus(cost).Get(r) {
        assert AllResources[Position(r)] == r;
      }
      SameCounts(resources, before.Minus(cost));
      return true;
    }

    /**
     * The loop `for r, a in bundle.items(): player.add_resources(r, a)` that
     * the trade code writes out at every credit and refund.
     */
    method Receive(bundle: Bundle)
      modifies this`resources
      ensures resources == old(resources).Plus(bundle)
    {
      var i := 0;
      while i < |AllResources|
        invariant 0 <= i <= |AllResources|
        invariant forall k :: 0 <= k < |AllResources| ==>
          resources.Get(AllResources[k])
            == old(resources).Get(AllResources[k]) + if k < i then bundle.Get(AllResources[k]) else 0
      {
        AddResources(AllResources[i], bundle.Get(AllResources[i]));
        i := i + 1;
      }
      forall r ensures resources.Get(r) == old(resources).Plus(bundle).Get(r) {
        assert AllResources[Position(r)] == r;
      }
      SameCounts(resources, old(resources).Plus(bundle));
    }

    /**
     * missing_for_build: the loop adds up, kind by kind, how many cards of
     * the cost the balance lacks; the total is the shortfall.
     */
    method MissingForBuild(cost: Bundle) returns (missing: nat)
      ensures missing == Shortfall(resources, cost)
      ensures missing == 0 <==> resources.Covers(cost)
    {
      missing := 0;
      var i := 0;
      while i < |AllResources|
        invariant 0 <= i <= |AllResources|
        invariant missing == GapSum(resources, cost, AllResources[..i])
      {
        var r := AllResources[i];
        if resources.Get(r) < cost.Get(r) {
          missing := missing + (cost.Get(r) - resources.Get(r));
        }
        assert AllResources[..i + 1][..i] == AllResources[..i];
        i := i + 1;
      }
      assert AllResources[..i] == AllResources;
      GapSumAll(resources, cost);
    }

    /** can_build: affordable exactly when nothing is missing for the cost. */
    predicate CanBuild(cost: Bundle)
      reads this`resources
      ensures CanBuild(cost) <==> Shortfall(resources, cost) == 0
    {
      resources.Covers(cost)
    }
  }

  /** Replacing one count by a larger one raises the total by the difference. */
  lemma TotalAfterWith(b: Bundle, r: Resource, amount: nat)
    ensures b.With(r, b.Get(r) + amount).Total() == b.Total() + amount
  {
    match r
    case Brick =>
    case Lumber =>
    case Ore =>
    case Grain =>
    case Wool =>
  }
}
