/**
 * How a computer player judges a proposed trade (Player.evaluate_trade_ai):
 * it declines what it cannot pay, compares the number of cards offered with
 * the number requested, simulates its balance after the trade to see whether
 * the trade brings a settlement or a city closer, and then follows the table
 * of its personality. A refusal may come with a counter-offer that raises
 * one already offered kind.
 *
 * The source computes `ratio = sum(offer) / sum(request)` in floating point,
 * infinite when nothing is requested; here each comparison of the ratio with
 * a threshold of `tenths`/10 is made exactly by cross-multiplication.
 */
module TradePolicy {
  import opened Resources
  import opened Wrappers

  /** The personality tag of a computer player; Default is the source's fallback branch (no tag). */
  datatype Personality = Generous | Fair | Greedy | Default

  /** The answer of the policy: whether it accepts and, when it refuses, a counter-offer or none. */
  datatype Verdict = Verdict(accepted: bool, counter: Option<Bundle>)

  /** ratio >= tenths/10, where ratio = offered/requested and is infinite when requested is 0. */
  predicate RatioAtLeast(offered: nat, requested: nat, tenths: nat)
  {
    requested == 0 || 10 * offered >= tenths * requested
  }

  /** ratio > tenths/10, with the same reading of ratio. */
  predicate RatioAbove(offered: nat, requested: nat, tenths: nat)
  {
    requested == 0 || 10 * offered > tenths * requested
  }

  /**
   * The size of a counter-offer's increase, `max(1, int(k * requested - offered))`
   * with k = tenths/10: Python's int() truncates toward zero, and max lifts
   * everything below 1 to 1.
   */
  function Increase(tenths: nat, offered: nat, requested: nat): (n: nat)
    ensures n >= 1
    ensures var d := tenths * requested - 10 * offered;
      (d >= 10 ==> 10 * n <= d < 10 * n + 10) && (d < 10 ==> n == 1)
  {
    var d := tenths * requested - 10 * offered;
    if d < 10 then 1 else d / 10
  }

  /** The kinds among `rs` of which `offer` holds at least one, in the order of `rs`. */
  function OfferedAmong(offer: Bundle, rs: seq<Resource>): (kinds: seq<Resource>)
    ensures forall r :: r in kinds <==> r in rs && offer.Get(r) > 0
    ensures |kinds| <= |rs|
  {
    if rs == [] then []
    else
      var rest := OfferedAmong(offer, rs[..|rs| - 1]);
      var last := rs[|rs| - 1];
      assert rs == rs[..|rs| - 1] + [last];
      if offer.Get(last) > 0 then rest + [last] else rest
  }

  /** The kinds the offer holds at least one of (`offered_resources` in propose_counter). */
  function Offered(offer: Bundle): (kinds: seq<Resource>)
    ensures forall r :: r in kinds <==> offer.Get(r) > 0
    ensures kinds == [] <==> offer.Total() == 0
  {
    var kinds := OfferedAmong(offer, AllResources);
    OfferedAmongAll(offer, kinds);
    kinds
  }

  /** Filtering the whole list of kinds keeps exactly the kinds the offer holds, and none only when it holds nothing. */
  lemma OfferedAmongAll(offer: Bundle, kinds: seq<Resource>)
    requires forall r :: r in kinds <==> r in AllResources && offer.Get(r) > 0
    ensures forall r :: r in kinds <==> offer.Get(r) > 0
    ensures kinds == [] <==> offer.Total() == 0
  {
    forall r ensures r in kinds <==> offer.Get(r) > 0 {
      assert AllResources[Position(r)] == r;
    }
    if kinds != [] {
      CountWithinTotal(offer, kinds[0]);
    } else {
      assert offer.Get(Brick) == 0 && offer.Get(Lumber) == 0 && offer.Get(Ore) == 0;
      assert offer.Get(Grain) == 0 && offer.Get(Wool) == 0;
    }
  }

  lemma CountWithinTotal(b: Bundle, r: Resource)
    ensures b.Get(r) <= b.Total()
  {
  }

  /** `counter` is `offer` with exactly one kind the offer already holds raised by `increase`. */
  ghost predicate RaisedOnce(counter: Bundle, offer: Bundle, increase: nat)
  {
    exists r :: offer.Get(r) > 0 && counter == offer.With(r, offer.Get(r) + increase)
  }

  /**
   * propose_counter: raise the offered kind that the random draw picks, or no
   * counter when the offer holds nothing. The draw stands for random.choice:
   * it is reduced into range, so each offered kind is the pick of some draw.
   */
  function ProposeCounter(offer: Bundle, increase: nat, draw: nat): (c: Option<Bundle>)
    ensures c.None? <==> offer.Total() == 0
    ensures c.Some? ==> RaisedOnce(c.value, offer, increase)
  {
    var kinds := Offered(offer);
    if kinds == [] then None
    else
      var r := kinds[draw % |kinds|];
      Some(offer.With(r, offer.Get(r) + increase))
  }

  /** Whatever offered kind `r` is, some draw makes the counter-offer raise `r`. */
  lemma EveryOfferedKindDrawable(offer: Bundle, increase: nat, r: Resource)
    requires offer.Get(r) > 0
    ensures exists draw: nat :: ProposeCounter(offer, increase, draw) == Some(offer.With(r, offer.Get(r) + increase))
  {
    var kinds := Offered(offer);
    var i :| 0 <= i < |kinds| && kinds[i] == r;
    assert i % |kinds| == i;
    assert ProposeCounter(offer, increase, i) == Some(offer.With(r, offer.Get(r) + increase));
  }

  /** Whether the trade lowers the evaluator's shortfall for a settlement or for a city. */
  predicate Helps(balance: Bundle, offer: Bundle, request: Bundle)
    requires balance.Covers(request)
  {
    var after := balance.Minus(request).Plus(offer);
    Shortfall(after, SettlementCost) < Shortfall(balance, SettlementCost)
    || Shortfall(after, CityCost) < Shortfall(balance, CityCost)
  }

  /** The acceptance column of the personality table, as one condition per personality. */
  predicate Acceptable(p: Personality, offered: nat, requested: nat, helps: bool)
  {
    match p
    case Generous => RatioAtLeast(offered, requested, 10) || helps
    case Fair => RatioAtLeast(offered, requested, 10) || (helps && RatioAtLeast(offered, requested, 9))
    case Greedy => RatioAbove(offered, requested, 10) || (helps && RatioAtLeast(offered, requested, 10))
    case Default => RatioAtLeast(offered, requested, 10)
  }

  /** The factor k, in tenths, that sizes a counter-offer: 0.9 for a fair player helped, 1.1 for a greedy one not helped, else 1.0. */
  function CounterTenths(p: Personality, helps: bool): nat
  {
    match p
    case Generous => 10
    case Fair => if helps then 9 else 10
    case Greedy => if helps then 10 else 11
    case Default => 10
  }

  const Accept: Verdict := Verdict(true, None)

  /**
   * evaluate_trade_ai for an evaluator with personality `p` and balance
   * `balance`: the evaluator would give `request` and receive `offer`.
   * `scarcity` is accepted and never read, as in the source; `draw` is the
   * random pick of the kind a counter-offer raises.
   */
  function Evaluate(p: Personality, balance: Bundle, offer: Bundle, request: Bundle, scarcity: bool, draw: nat): (v: Verdict)
    ensures !balance.Covers(request) ==> v == Verdict(false, None)
    ensures v.accepted <==>
      balance.Covers(request) && Acceptable(p, offer.Total(), request.Total(), Helps(balance, offer, request))
    ensures v.accepted ==> v.counter == None
    ensures v.counter.Some? <==> balance.Covers(request) && !v.accepted && offer.Total() > 0
    ensures v.counter.Some? ==>
      RaisedOnce(v.counter.value, offer,
                 Increase(CounterTenths(p, Helps(balance, offer, request)), offer.Total(), request.Total()))
  {
    if !balance.Covers(request) then Verdict(false, None)
    else
      var o, r := offer.Total(), request.Total();
      var helps := Helps(balance, offer, request);
      match p
      case Generous =>
        if RatioAtLeast(o, r, 10) then Accept
        else if helps then Accept
        else Verdict(false, ProposeCounter(offer, Increase(10, o, r), draw))
      case Fair =>
        if RatioAtLeast(o, r, 10) then Accept
        else if helps then
          if RatioAtLeast(o, r, 9) then Accept
          else Verdict(false, ProposeCounter(offer, Increase(9, o, r), draw))
        else Verdict(false, ProposeCounter(offer, Increase(10, o, r), draw))
      case Greedy =>
        if RatioAbove(o, r, 10) then Accept
        else if helps then
          if RatioAtLeast(o, r, 10) then Accept
          else Verdict(false, ProposeCounter(offer, Increase(10, o, r), draw))
        else Verdict(false, ProposeCounter(offer, Increase(11, o, r), draw))
      case Default =>
        if RatioAtLeast(o, r, 10) then Accept
        else Verdict(false, ProposeCounter(offer, Increase(10, o, r), draw))
  }

  /**
   * A counter-offer only ever adds to what the proposer gives: it holds at
   * least the original count of every kind and at least one card more in all.
   */
  lemma CounterDominates(p: Personality, balance: Bundle, offer: Bundle, request: Bundle, scarcity: bool, draw: nat)
    requires Evaluate(p, balance, offer, request, scarcity, draw).counter.Some?
    ensures var c := Evaluate(p, balance, offer, request, scarcity, draw).counter.value;
      c.Covers(offer) && c.Total() > offer.Total()
  {
    var v := Evaluate(p, balance, offer, request, scarcity, draw);
    RaisedDominates(v.counter.value, offer,
      Increase(CounterTenths(p, Helps(balance, offer, request)), offer.Total(), request.Total()));
  }

  /** Raising one kind by n >= 1 gives a bundle at least as large in every kind and n larger in total. */
  lemma RaisedDominates(counter: Bundle, offer: Bundle, n: nat)
    requires RaisedOnce(counter, offer, n) && n >= 1
    ensures counter.Covers(offer) && counter.Total() == offer.Total() + n
  {
    var r :| offer.Get(r) > 0 && counter == offer.With(r, offer.Get(r) + n);
    match r
    case Brick =>
    case Lumber =>
    case Ore =>
    case Grain =>
    case Wool =>
  }

  /** A counter sized with k = 1.0 brings the offered count exactly up to the requested one. */
  lemma ParityIncrease(offered: nat, requested: nat)
    requires offered < requested
    ensures offered + Increase(10, offered, requested) == requested
  {
    var d := 10 * requested - 10 * offered;
    assert d == 10 * (requested - offered);
    assert d / 10 == requested - offered;
  }

  /**
   * Because int() truncates, the greedy factor 1.1 is lost on requests of
   * fewer than ten cards when fewer cards are offered than requested: the
   * counter only brings the offer to parity, a ratio
   * of 1.0 that is not above 1.0, so a greedy player that the trade does not
   * help would refuse its own counter. Two ore asked for one brick draws the
   * counter {brick: 2}, not {brick: 3}.
   */
  lemma GreedyIncreaseTruncated(offered: nat, requested: nat)
    requires offered < requested < 10
    ensures offered + Increase(11, offered, requested) == requested
    ensures !RatioAbove(offered + Increase(11, offered, requested), requested, 10)
  {
    var d := 11 * requested - 10 * offered;
    assert d == 10 * (requested - offered) + requested;
    assert d / 10 == requested - offered;
  }
}
