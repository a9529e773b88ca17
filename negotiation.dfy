/**
 * The trade session of Game.trade_resources, as a function of the balances
 * at the start of the session and of what is typed and drawn during it.
 * Nothing in a session changes a balance until a trade completes (a failed
 * swap is refunded in full), so every partner is visited against the
 * starting balances, and the session is decided by the first partner whose
 * visit does not simply move on.
 */
module Negotiation {
  import opened Wrappers
  import opened Resources
  import opened TradePolicy

  /** A seated player as a trade session sees it. */
  datatype Seat = Seat(isHuman: bool, personality: Personality, balance: Bundle)

  /** A human partner's answer to an offer: "y", "c" (a counter-offer), or anything else. */
  datatype Answer = Yes | Counter | No

  /**
   * Everything typed or drawn while one partner is visited: the human
   * partner's answer; the kind and number of extra cards its counter-offer
   * demands (None when what was typed is no resource name, or no number);
   * the human initiator's "y" to a counter-offer; and the random pick of the
   * kind a computer partner's counter-offer raises.
   */
  datatype Reply = Reply(answer: Answer, extra: Option<Resource>, amount: Option<nat>, acceptsCounter: bool, draw: nat)

  /** How a swap ends: the initiator cannot pay, the partner cannot pay, or both paid. */
  datatype Exchange = InitiatorShort | PartnerShort | Swapped

  /**
   * A swap: the initiator pays `give` first, then the partner pays `request`;
   * each payment is all or nothing.
   */
  function Settle(initiator: Bundle, partner: Bundle, give: Bundle, request: Bundle): Exchange
  {
    if !initiator.Covers(give) then InitiatorShort
    else if !partner.Covers(request) then PartnerShort
    else Swapped
  }

  /** What one partner's visit comes to: move on, end the session without a trade, or trade `give` for the request. */
  datatype Step = Next | Abort | Done(give: Bundle)

  /** A swap of the original offer: an initiator that cannot pay ends the session. */
  function OfferStep(e: Exchange, offer: Bundle): Step
  {
    match e
    case InitiatorShort => Abort
    case PartnerShort => Next
    case Swapped => Done(offer)
  }

  /** A swap of a counter-offer: whoever cannot pay, the session moves on. */
  function CounterStep(e: Exchange, counter: Bundle): Step
  {
    if e == Swapped then Done(counter) else Next
  }

  /** A human partner's counter-offer: the offer with `amount` more cards of `extra`. */
  function Raise(offer: Bundle, extra: Resource, amount: nat): (counter: Bundle)
    ensures counter.Get(extra) == offer.Get(extra) + amount
    ensures forall r :: r != extra ==> counter.Get(r) == offer.Get(r)
  {
    offer.With(extra, offer.Get(extra) + amount)
  }

  /**
   * The visit of one partner. A human partner accepts, counters or declines;
   * its counter is judged by a human initiator's answer or by a computer
   * initiator's own policy. A computer partner runs its policy; its
   * counter-offer is put to a human initiator and always declined by a
   * computer initiator.
   */
  function Round(ini: Seat, partner: Seat, offer: Bundle, request: Bundle, scarcity: bool, reply: Reply): Step
  {
    if partner.isHuman then
      match reply.answer
      case Yes => OfferStep(Settle(ini.balance, partner.balance, offer, request), offer)
      case No => Next
      case Counter =>
        if reply.extra.None? || reply.amount.None? then Next
        else
          var counter := Raise(offer, reply.extra.value, reply.amount.value);
          var agreed :=
            if ini.isHuman then reply.acceptsCounter
            else Evaluate(ini.personality, ini.balance, counter, request, scarcity, reply.draw).accepted;
          if agreed then CounterStep(Settle(ini.balance, partner.balance, counter, request), counter)
          else Next
    else
      var v := Evaluate(partner.personality, partner.balance, offer, request, scarcity, reply.draw);
      if v.accepted then OfferStep(Settle(ini.balance, partner.balance, offer, request), offer)
      else if v.counter.Some? && ini.isHuman && reply.acceptsCounter then
        CounterStep(Settle(ini.balance, partner.balance, v.counter.value, request), v.counter.value)
      else Next
  }

  /** How a session ends: nobody traded, the initiator could not pay its offer, or a trade with one partner. */
  datatype Outcome = NoDeal | Aborted | Deal(partner: nat, give: Bundle)

  /** What visiting seat `k` comes to; the initiator's own seat is skipped, which here reads as moving on. */
  function StepAt(seats: seq<Seat>, ini: nat, offer: Bundle, request: Bundle, scarcity: bool, replies: seq<Reply>, k: nat): Step
    requires ini < |seats| && |replies| == |seats| && k < |seats|
  {
    if k == ini then Next else Round(seats[ini], seats[k], offer, request, scarcity, replies[k])
  }

  /**
   * What visiting each of the first `n` seats comes to, all against the
   * starting balances and the original offer.
   */
  function Visits(seats: seq<Seat>, ini: nat, offer: Bundle, request: Bundle, scarcity: bool, replies: seq<Reply>, n: nat)
    : (steps: seq<Step>)
    requires ini < |seats| && |replies| == |seats| && n <= |seats|
    ensures |steps| == n
  {
    if n == 0 then []
    else Visits(seats, ini, offer, request, scarcity, replies, n - 1) + [StepAt(seats, ini, offer, request, scarcity, replies, n - 1)]
  }

  /** The visit results are listed in seat order. */
  lemma {:induction false} VisitsAt(seats: seq<Seat>, ini: nat, offer: Bundle, request: Bundle, scarcity: bool,
                                    replies: seq<Reply>, n: nat, k: nat)
    requires ini < |seats| && |replies| == |seats| && k < n <= |seats|
    ensures Visits(seats, ini, offer, request, scarcity, replies, n)[k] == StepAt(seats, ini, offer, request, scarcity, replies, k)
  {
    var prefix := Visits(seats, ini, offer, request, scarcity, replies, n - 1);
    assert Visits(seats, ini, offer, request, scarcity, replies, n) == prefix + [StepAt(seats, ini, offer, request, scarcity, replies, n - 1)];
    if k < n - 1 {
      VisitsAt(seats, ini, offer, request, scarcity, replies, n - 1, k);
    }
  }

  /** The session from seat `k` on: the first visit that does not move on decides it. */
  function Session(steps: seq<Step>, k: nat): Outcome
    requires k <= |steps|
    decreases |steps| - k
  {
    if k == |steps| then NoDeal
    else
      match steps[k]
      case Next => Session(steps, k + 1)
      case Abort => Aborted
      case Done(give) => Deal(k, give)
  }

  /** One visit of the session: a completed trade or an abort ends it there, moving on leaves the rest to decide. */
  lemma SessionAdvance(steps: seq<Step>, k: nat)
    requires k < |steps|
    ensures steps[k].Done? ==> Session(steps, k) == Deal(k, steps[k].give)
    ensures steps[k] == Abort ==> Session(steps, k) == Aborted
    ensures steps[k] == Next ==> Session(steps, k) == Session(steps, k + 1)
  {
  }

  /** The number of seats among the first `n`, other than the initiator's, that could pay the request. */
  function SuppliersUpTo(seats: seq<Seat>, ini: nat, request: Bundle, n: nat): (count: nat)
    requires n <= |seats|
    ensures count <= n
  {
    if n == 0 then 0
    else SuppliersUpTo(seats, ini, request, n - 1)
         + if n - 1 != ini && seats[n - 1].balance.Covers(request) then 1 else 0
  }

  function Suppliers(seats: seq<Seat>, ini: nat, request: Bundle): nat
  {
    SuppliersUpTo(seats, ini, request, |seats|)
  }

  /** trade_resources: the session with scarcity meaning exactly one other player could pay the request. */
  function Trade(seats: seq<Seat>, ini: nat, offer: Bundle, request: Bundle, replies: seq<Reply>): Outcome
    requires ini < |seats| && |replies| == |seats|
  {
    Session(Visits(seats, ini, offer, request, Suppliers(seats, ini, request) == 1, replies, |seats|), 0)
  }

  /** The balances of the seats, in seat order. */
  function Balances(seats: seq<Seat>): (bs: seq<Bundle>)
    ensures |bs| == |seats| && forall k :: 0 <= k < |seats| ==> bs[k] == seats[k].balance
  {
    if seats == [] then [] else Balances(seats[..|seats| - 1]) + [seats[|seats| - 1].balance]
  }

  /**
   * The balances after a session: a trade moves `give` from the initiator to
   * the partner and the request the other way; any other outcome leaves
   * every balance as it was.
   */
  function Settled(balances: seq<Bundle>, ini: nat, request: Bundle, outcome: Outcome): (after: seq<Bundle>)
    requires ini < |balances|
    ensures |after| == |balances|
  {
    if outcome.Deal? && outcome.partner < |balances| && outcome.partner != ini
       && balances[ini].Covers(outcome.give) && balances[outcome.partner].Covers(request)
    then
      balances[ini := balances[ini].Minus(outcome.give).Plus(request)]
              [outcome.partner := balances[outcome.partner].Minus(request).Plus(outcome.give)]
    else balances
  }

  /** The number of cards of kind `r` held by all seats together. */
  function KindTotal(balances: seq<Bundle>, r: Resource): nat
  {
    if balances == [] then 0 else KindTotal(balances[..|balances| - 1], r) + balances[|balances| - 1].Get(r)
  }

  /** Replacing one balance changes the kind total by the difference. */
  lemma {:induction false} KindTotalUpdate(balances: seq<Bundle>, i: nat, b: Bundle, r: Resource)
    requires i < |balances|
    ensures KindTotal(balances[i := b], r) == KindTotal(balances, r) - balances[i].Get(r) + b.Get(r)
    decreases |balances|
  {
    var n := |balances| - 1;
    var after := balances[i := b];
    assert after[..n] == if i < n then balances[..n][i := b] else balances[..n];
    if i < n {
      KindTotalUpdate(balances[..n], i, b, r);
    }
  }

  /** Trading conserves every kind: the seats hold as many cards of each kind after a session as before. */
  lemma Conservation(balances: seq<Bundle>, ini: nat, request: Bundle, outcome: Outcome, r: Resource)
    requires ini < |balances|
    ensures KindTotal(Settled(balances, ini, request, outcome), r) == KindTotal(balances, r)
  {
    if outcome.Deal? && outcome.partner < |balances| && outcome.partner != ini
       && balances[ini].Covers(outcome.give) && balances[outcome.partner].Covers(request)
    {
      var j, give := outcome.partner, outcome.give;
      var mid := balances[ini := balances[ini].Minus(give).Plus(request)];
      KindTotalUpdate(balances, ini, balances[ini].Minus(give).Plus(request), r);
      KindTotalUpdate(mid, j, balances[j].Minus(request).Plus(give), r);
    }
  }

  /**
   * A visit that trades is a swap both sides could pay, and the initiator
   * never gives less than it offered: what it gives is the offer or a
   * counter-offer that only adds to it.
   */
  lemma RoundDone(ini: Seat, partner: Seat, offer: Bundle, request: Bundle, scarcity: bool, reply: Reply)
    requires Round(ini, partner, offer, request, scarcity, reply).Done?
    ensures var give := Round(ini, partner, offer, request, scarcity, reply).give;
      ini.balance.Covers(give) && partner.balance.Covers(request) && give.Covers(offer)
  {
    var give := Round(ini, partner, offer, request, scarcity, reply).give;
    if partner.isHuman {
      if reply.answer == Counter {
        CoversEach(give, offer);
      }
    } else {
      var v := Evaluate(partner.personality, partner.balance, offer, request, scarcity, reply.draw);
      if !v.accepted {
        CounterDominates(partner.personality, partner.balance, offer, request, scarcity, reply.draw);
      }
    }
  }

  /** A session only ends without a trade's being possible when the initiator cannot pay its own offer. */
  lemma RoundAbort(ini: Seat, partner: Seat, offer: Bundle, request: Bundle, scarcity: bool, reply: Reply)
    requires Round(ini, partner, offer, request, scarcity, reply) == Abort
    ensures !ini.balance.Covers(offer)
  {
  }

  /** Between two computer players a trade is always exactly the original offer for the request. */
  lemma ComputersTradeTheOffer(ini: Seat, partner: Seat, offer: Bundle, request: Bundle, scarcity: bool, reply: Reply)
    requires !ini.isHuman && !partner.isHuman
    requires Round(ini, partner, offer, request, scarcity, reply).Done?
    ensures Round(ini, partner, offer, request, scarcity, reply).give == offer
  {
  }

  /**
   * A session trades with the first seat from `k` on whose visit does not
   * move on: every seat before it moved on, and the trade is the one that
   * seat's visit makes.
   */
  lemma {:induction false} SessionDeal(steps: seq<Step>, k: nat)
    requires k <= |steps|
    requires Session(steps, k).Deal?
    ensures var o := Session(steps, k);
      && k <= o.partner < |steps| && steps[o.partner] == Done(o.give)
      && forall m :: k <= m < o.partner ==> steps[m] == Next
    decreases |steps| - k
  {
    if steps[k] == Next {
      SessionDeal(steps, k + 1);
    }
  }

  /** A session from `k` on ends without a trade and without aborting exactly when every visit from `k` on moves on. */
  lemma {:induction false} SessionNoDeal(steps: seq<Step>, k: nat)
    requires k <= |steps|
    ensures Session(steps, k) == NoDeal <==> forall m :: k <= m < |steps| ==> steps[m] == Next
    decreases |steps| - k
  {
    if k < |steps| {
      SessionNoDeal(steps, k + 1);
    }
  }

  /** A session aborts only at a visit that aborts. */
  lemma {:induction false} SessionAborted(steps: seq<Step>, k: nat)
    requires k <= |steps|
    requires Session(steps, k) == Aborted
    ensures exists m :: k <= m < |steps| && steps[m] == Abort
    decreases |steps| - k
  {
    if steps[k] == Next {
      SessionAborted(steps, k + 1);
    }
  }

  /** An initiator that can pay its offer never has its session aborted. */
  lemma SessionNeverAborts(seats: seq<Seat>, ini: nat, offer: Bundle, request: Bundle, scarcity: bool, replies: seq<Reply>)
    requires ini < |seats| && |replies| == |seats|
    requires seats[ini].balance.Covers(offer)
    ensures Session(Visits(seats, ini, offer, request, scarcity, replies, |seats|), 0) != Aborted
  {
    var steps := Visits(seats, ini, offer, request, scarcity, replies, |seats|);
    if Session(steps, 0) == Aborted {
      SessionAborted(steps, 0);
      var m :| 0 <= m < |steps| && steps[m] == Abort;
      VisitsAt(seats, ini, offer, request, scarcity, replies, |seats|, m);
      RoundAbort(seats[ini], seats[m], offer, request, scarcity, replies[m]);
    }
  }

  /**
   * What a completed trade looks like: a partner other than the initiator,
   * both sides able to pay, at least the original offer given, and, between
   * two computer players, exactly the original offer.
   */
  lemma TradeShape(seats: seq<Seat>, ini: nat, offer: Bundle, request: Bundle, replies: seq<Reply>)
    requires ini < |seats| && |replies| == |seats|
    requires Trade(seats, ini, offer, request, replies).Deal?
    ensures var o := Trade(seats, ini, offer, request, replies);
      && o.partner < |seats| && o.partner != ini
      && seats[ini].balance.Covers(o.give) && seats[o.partner].balance.Covers(request)
      && o.give.Covers(offer)
      && (!seats[ini].isHuman && !seats[o.partner].isHuman ==> o.give == offer)
  {
    var scarcity := Suppliers(seats, ini, request) == 1;
    var o := Trade(seats, ini, offer, request, replies);
    SessionDeal(Visits(seats, ini, offer, request, scarcity, replies, |seats|), 0);
    VisitsAt(seats, ini, offer, request, scarcity, replies, |seats|, o.partner);
    RoundDone(seats[ini], seats[o.partner], offer, request, scarcity, replies[o.partner]);
  }

  /** The supplier count counts exactly the other seats that could pay the request. */
  lemma {:induction false} SuppliersCount(seats: seq<Seat>, ini: nat, request: Bundle, n: nat)
    requires n <= |seats|
    ensures SuppliersUpTo(seats, ini, request, n)
      == |set k | 0 <= k < n && k != ini && seats[k].balance.Covers(request)|
  {
    if n > 0 {
      SuppliersCount(seats, ini, request, n - 1);
      var before := set k | 0 <= k < n - 1 && k != ini && seats[k].balance.Covers(request);
      var all := set k | 0 <= k < n && k != ini && seats[k].balance.Covers(request);
      if n - 1 != ini && seats[n - 1].balance.Covers(request) {
        assert n - 1 !in before;
        assert all == before + {n - 1};
      } else {
        assert all == before;
      }
    }
  }

  /** A completed trade needs a partner that could pay the request, so there was at least one supplier. */
  lemma DealHasSupplier(seats: seq<Seat>, ini: nat, offer: Bundle, request: Bundle, replies: seq<Reply>)
    requires ini < |seats| && |replies| == |seats|
    requires Trade(seats, ini, offer, request, replies).Deal?
    ensures Suppliers(seats, ini, request) >= 1
  {
    var o := Trade(seats, ini, offer, request, replies);
    TradeShape(seats, ini, offer, request, replies);
    SuppliersCount(seats, ini, request, |seats|);
    var supplying := set k | 0 <= k < |seats| && k != ini && seats[k].balance.Covers(request);
    assert o.partner in supplying;
    assert supplying == (supplying - {o.partner}) + {o.partner};
  }

  /**
   * The trade a human initiator types: the kind and number it offers and the
   * kind and number it wants (None where what was typed is no resource name
   * or no number). Any unreadable entry, or an offer of more cards of its
   * kind than the initiator holds, gives no trade at all.
   */
  function Proposal(balance: Bundle, offerKind: Option<Resource>, offerAmount: Option<nat>,
                    requestKind: Option<Resource>, requestAmount: Option<nat>): Option<(Bundle, Bundle)>
  {
    if offerKind.None? || offerAmount.None? then None
    else if balance.Get(offerKind.value) < offerAmount.value then None
    else if requestKind.None? || requestAmount.None? then None
    else Some((Single(offerKind.value, offerAmount.value), Single(requestKind.value, requestAmount.value)))
  }

  /** A proposal that passed its checks is one the initiator can pay, so its session never aborts. */
  lemma ProposalNeverAborts(seats: seq<Seat>, ini: nat, replies: seq<Reply>, proposal: Option<(Bundle, Bundle)>,
                            offerKind: Option<Resource>, offerAmount: Option<nat>,
                            requestKind: Option<Resource>, requestAmount: Option<nat>)
    requires ini < |seats| && |replies| == |seats|
    requires proposal == Proposal(seats[ini].balance, offerKind, offerAmount, requestKind, requestAmount)
    requires proposal.Some?
    ensures Trade(seats, ini, proposal.value.0, proposal.value.1, replies) != Aborted
  {
    var offer := proposal.value.0;
    CoversEach(seats[ini].balance, offer);
    SessionNeverAborts(seats, ini, offer, proposal.value.1, Suppliers(seats, ini, proposal.value.1) == 1, replies);
  }
}
