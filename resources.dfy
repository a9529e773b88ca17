/**
 * The five resource kinds of the game, bundles of them, and the fixed build
 * costs. A player's balance, a build cost, a trade offer, a trade request and
 * a counter-offer are all bundles. The source keeps them as dictionaries
 * keyed by the resource name; a key a dictionary leaves out reads as zero
 * here, which every operation of the source treats the same as an explicit
 * zero entry.
 */
module Resources {

  datatype Resource = Brick | Lumber | Ore | Grain | Wool

  /** The resource kinds in the order a player's ledger lists them. */
  const AllResources: seq<Resource> := [Brick, Lumber, Ore, Grain, Wool]

  /** Where a resource kind stands in AllResources; every kind stands there once. */
  function Position(r: Resource): (k: nat)
    ensures k < |AllResources| && AllResources[k] == r
    ensures forall j :: 0 <= j < |AllResources| && AllResources[j] == r ==> j == k
  {
    match r
    case Brick => 0
    case Lumber => 1
    case Ore => 2
    case Grain => 3
    case Wool => 4
  }

  /** A count of each resource kind. */
  datatype Bundle = Bundle(brick: nat, lumber: nat, ore: nat, grain: nat, wool: nat)
  {
    function Get(r: Resource): nat
    {
      match r
      case Brick => brick
      case Lumber => lumber
      case Ore => ore
      case Grain => grain
      case Wool => wool
    }

    /** The bundle with the count of `r` replaced by `n` and every other count kept. */
    function With(r: Resource, n: nat): (b: Bundle)
      ensures b.Get(r) == n
      ensures forall s :: s != r ==> b.Get(s) == Get(s)
    {
      match r
      case Brick => this.(brick := n)
      case Lumber => this.(lumber := n)
      case Ore => this.(ore := n)
      case Grain => this.(grain := n)
      case Wool => this.(wool := n)
    }

    /** The number of cards in the bundle, the sum of its values. */
    function Total(): nat
    {
      brick + lumber + ore + grain + wool
    }

    /** Every count of `cost` is matched: the affordability test. */
    predicate Covers(cost: Bundle)
    {
      brick >= cost.brick && lumber >= cost.lumber && ore >= cost.ore
      && grain >= cost.grain && wool >= cost.wool
    }

    function Plus(b: Bundle): (sum: Bundle)
      ensures forall r :: sum.Get(r) == Get(r) + b.Get(r)
    {
      Bundle(brick + b.brick, lumber + b.lumber, ore + b.ore, grain + b.grain, wool + b.wool)
    }

    function Minus(b: Bundle): (rest: Bundle)
      requires Covers(b)
      ensures forall r :: rest.Get(r) == Get(r) - b.Get(r)
    {
      Bundle(brick - b.brick, lumber - b.lumber, ore - b.ore, grain - b.grain, wool - b.wool)
    }
  }

  const Empty: Bundle := Bundle(0, 0, 0, 0, 0)

  /** A bundle holding `n` of one kind and nothing else, as `{r: n}` in the source. */
  function Single(r: Resource, n: nat): (b: Bundle)
    ensures b.Get(r) == n
    ensures forall s :: s != r ==> b.Get(s) == 0
  {
    Empty.With(r, n)
  }

  /** Settlement: one brick, lumber, grain and wool. */
  const SettlementCost: Bundle := Bundle(1, 1, 0, 1, 1)
  /** City upgrade: three ore and two grain. */
  const CityCost: Bundle := Bundle(0, 0, 3, 2, 0)
  /** Road: one brick and one lumber. */
  const RoadCost: Bundle := Bundle(1, 1, 0, 0, 0)

  /** Two bundles with the same count of every kind are the same bundle. */
  lemma SameCounts(a: Bundle, b: Bundle)
    requires forall r :: a.Get(r) == b.Get(r)
    ensures a == b
  {
    assert a.Get(Brick) == b.Get(Brick) && a.Get(Lumber) == b.Get(Lumber);
    assert a.Get(Ore) == b.Get(Ore) && a.Get(Grain) == b.Get(Grain) && a.Get(Wool) == b.Get(Wool);
  }

  /** Adding an empty bundle changes nothing. */
  lemma PlusNothing(a: Bundle, b: Bundle)
    requires b == Empty
    ensures a.Plus(b) == a
  {
  }

  /** Taking an empty bundle away changes nothing. */
  lemma MinusNothing(a: Bundle)
    ensures a.Covers(Empty) && a.Minus(Empty) == a
  {
  }

  /** Paying `cost` out of `have` leaves `cost.Total()` fewer cards. */
  lemma MinusTotal(have: Bundle, cost: Bundle)
    requires have.Covers(cost)
    ensures have.Minus(cost).Total() == have.Total() - cost.Total()
  {
  }

  /** Paying a bundle and getting it back restores the balance exactly. */
  lemma RefundRestores(have: Bundle, paid: Bundle)
    requires have.Covers(paid)
    ensures have.Minus(paid).Plus(paid) == have
  {
  }

  /** Adding bundles one after the other is adding their sum. */
  lemma PlusAssoc(a: Bundle, b: Bundle, c: Bundle)
    ensures a.Plus(b).Plus(c) == a.Plus(b.Plus(c))
  {
  }

  /** Covers is the kind-by-kind comparison the source's loops make. */
  lemma CoversEach(have: Bundle, cost: Bundle)
    ensures have.Covers(cost) <==> forall r :: have.Get(r) >= cost.Get(r)
  {
    if forall r :: have.Get(r) >= cost.Get(r) {
      assert have.Get(Brick) >= cost.Get(Brick) && have.Get(Lumber) >= cost.Get(Lumber);
      assert have.Get(Ore) >= cost.Get(Ore) && have.Get(Grain) >= cost.Get(Grain);
      assert have.Get(Wool) >= cost.Get(Wool);
    }
  }

  /** A balance with at least `n` cards of kind `r` can pay `n` of them. */
  lemma CoversSingle(have: Bundle, r: Resource, n: nat)
    requires have.Get(r) >= n
    ensures have.Covers(Single(r, n))
  {
    CoversEach(have, Single(r, n));
  }

  /** How far `have` is below `need`, or zero. */
  function Gap(have: nat, need: nat): nat
  {
    if have < need then need - have else 0
  }

  /**
   * The total shortfall of a balance against a cost, summed over the kinds
   * (missing_for_build, and the missing_after_trade copy of it that the
   * trade policy applies to a simulated balance).
   */
  function Shortfall(have: Bundle, cost: Bundle): (m: nat)
    ensures m == 0 <==> have.Covers(cost)
    ensures m <= cost.Total()
  {
    Gap(have.brick, cost.brick) + Gap(have.lumber, cost.lumber) + Gap(have.ore, cost.ore)
    + Gap(have.grain, cost.grain) + Gap(have.wool, cost.wool)
  }

  /** The gaps of the listed kinds, added up in list order. */
  function GapSum(have: Bundle, cost: Bundle, kinds: seq<Resource>): nat
  {
    if kinds == [] then 0
    else GapSum(have, cost, kinds[..|kinds| - 1]) + Gap(have.Get(kinds[|kinds| - 1]), cost.Get(kinds[|kinds| - 1]))
  }

  /** Adding up the gaps of all five kinds, one by one, gives the shortfall. */
  lemma GapSumAll(have: Bundle, cost: Bundle)
    ensures GapSum(have, cost, AllResources) == Shortfall(have, cost)
  {
    var s1, s2, s3, s4 := [Brick], [Brick, Lumber], [Brick, Lumber, Ore], [Brick, Lumber, Ore, Grain];
    assert s1[..0] == [] && s2[..1] == s1 && s3[..2] == s2 && s4[..3] == s3 && AllResources[..4] == s4;
    assert GapSum(have, cost, s1) == Gap(have.brick, cost.brick);
    assert GapSum(have, cost, s2) == GapSum(have, cost, s1) + Gap(have.lumber, cost.lumber);
    assert GapSum(have, cost, s3) == GapSum(have, cost, s2) + Gap(have.ore, cost.ore);
    assert GapSum(have, cost, s4) == GapSum(have, cost, s3) + Gap(have.grain, cost.grain);
  }

  /** Adding cards to a balance never raises its shortfall against any cost. */
  lemma ShortfallAntitone(have: Bundle, more: Bundle, cost: Bundle)
    ensures Shortfall(have.Plus(more), cost) <= Shortfall(have, cost)
  {
  }

  /** A settlement is dearer than a road in every kind: whoever can settle can build a road. */
  lemma SettlementCoversRoad(have: Bundle)
    requires have.Covers(SettlementCost)
    ensures have.Covers(RoadCost)
  {
  }
}
