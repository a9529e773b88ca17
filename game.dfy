/**
 * The game (class Game): the players, the board, whose turn it is, and the
 * operations that move resources and structures: production on a dice roll,
 * the starting hand, the pass bonus, building, and trading.
 */
module Catan {
  import opened Wrappers
  import opened Resources
  import opened TradePolicy
  import opened Players
  import opened Board
  import opened Building
  import opened Negotiation

  /** The number of cards a computer player offers, and asks for, in a trade of its own. */
  const AiLot: nat := 1

  /**
   * A computer player proposes a trade only when it holds the card it offers,
   * so the session its proposal opens never aborts.
   */
  lemma AiTradeNeverAborts(seats: seq<Seat>, ini: nat, offerKind: Resource, requestKind: Resource, replies: seq<Reply>)
    requires ini < |seats| && |replies| == |seats|
    requires seats[ini].balance.Get(offerKind) >= AiLot
    ensures Trade(seats, ini, Single(offerKind, AiLot), Single(requestKind, AiLot), replies) != Aborted
  {
    var offer := Single(offerKind, AiLot);
    var request := Single(requestKind, AiLot);
    CoversSingle(seats[ini].balance, offerKind, AiLot);
    SessionNeverAborts(seats, ini, offer, request, Suppliers(seats, ini, request) == 1, replies);
  }

  /** A copy of `s` without the first occurrence of `x` (Python's list.remove). */
  function RemoveFirst(s: seq<nat>, x: nat): (t: seq<nat>)
    requires x in s
    ensures |t| == |s| - 1
    ensures forall h :: Occurrences(h, t) == Occurrences(h, s) - if h == x then 1 else 0
  {
    if s[0] == x then
      OccurrencesOfTail(s);
      s[1..]
    else
      var t := [s[0]] + RemoveFirst(s[1..], x);
      OccurrencesOfTail(s);
      OccurrencesOfTail(t);
      assert t[1..] == RemoveFirst(s[1..], x);
      t
  }

  /** Counting from the front agrees with counting from the back. */
  lemma {:induction false} OccurrencesOfTail<T>(s: seq<T>)
    requires s != []
    ensures forall x :: Occurrences(x, s) == Occurrences(x, s[1..]) + if s[0] == x then 1 else 0
  {
    if |s| > 1 {
      var init := s[..|s| - 1];
      OccurrencesOfTail(init);
      assert init[1..] == s[1..][..|s[1..]| - 1];
    }
  }

  /** Appending `y` adds one occurrence of `y` and none of anything else. */
  lemma OccurrencesAppend<T>(s: seq<T>, y: T)
    ensures forall x :: Occurrences(x, s + [y]) == Occurrences(x, s) + if x == y then 1 else 0
  {
    assert (s + [y])[..|s|] == s;
  }

  /**
   * Receiving a list of single cards adds as many cards as the list is long:
   * the starting hand of five draws is five cards.
   */
  lemma {:induction false} HandTotal(before: Bundle, after: Bundle, cards: seq<Resource>)
    requires forall r :: after.Get(r) == before.Get(r) + Occurrences(r, cards)
    ensures after.Total() == before.Total() + |cards|
    decreases |cards|
  {
    if cards == [] {
      SameCounts(after, before);
    } else {
      var init, last := cards[..|cards| - 1], cards[|cards| - 1];
      assert cards == init + [last];
      OccurrencesAppend(init, last);
      var mid := after.With(last, after.Get(last) - 1);
      HandTotal(before, mid, init);
      TotalAfterWith(mid, last, 1);
      SameCounts(mid.With(last, mid.Get(last) + 1), after);
    }
  }

  /** A player as a trade session sees it. */
  function SeatOf(p: Player): Seat
    reads p`resources
  {
    Seat(p.isHuman, p.personality, p.resources)
  }

  /** The players as a trade session sees them, in seat order. */
  function SeatsOf(ps: seq<Player>): (seats: seq<Seat>)
    reads ps`resources
    ensures |seats| == |ps| && forall k :: 0 <= k < |ps| ==> seats[k] == SeatOf(ps[k])
  {
    if ps == [] then [] else SeatsOf(ps[..|ps| - 1]) + [SeatOf(ps[|ps| - 1])]
  }

  /**
   * The supplier test of trade_resources: a kind-by-kind pass over the
   * request that stops at the first kind the player holds too few of.
   */
  method CanSupply(p: Player, request: Bundle) returns (can: bool)
    ensures can == p.resources.Covers(request)
  {
    CoversEach(p.resources, request);
    can := true;
    var i := 0;
    while i < |AllResources|
      invariant 0 <= i <= |AllResources|
      invariant can ==> forall k :: 0 <= k < i ==> p.resources.Get(AllResources[k]) >= request.Get(AllResources[k])
      invariant !can ==> !p.resources.Covers(request)
    {
      if p.resources.Get(AllResources[i]) < request.Get(AllResources[i]) {
        can := false;
        break;
      }
      i := i + 1;
    }
    if can {
      forall r ensures p.resources.Get(r) >= request.Get(r) {
        assert AllResources[Position(r)] == r;
      }
    }
  }

  /**
   * One swap of the trade code: the initiator pays `give`, then the partner
   * pays `request`, then each is credited with what the other paid. When the
   * partner cannot pay, the initiator is refunded.
   */
  method Swap(initiator: Player, partner: Player, give: Bundle, request: Bundle) returns (e: Exchange)
    requires initiator != partner
    modifies initiator`resources, partner`resources
    ensures e == Settle(old(initiator.resources), old(partner.resources), give, request)
    ensures e == Swapped ==>
      && initiator.resources == old(initiator.resources).Minus(give).Plus(request)
      && partner.resources == old(partner.resources).Minus(request).Plus(give)
    ensures e != Swapped ==> initiator.resources == old(initiator.resources) && partner.resources == old(partner.resources)
    ensures forall r :: initiator.resources.Get(r) + partner.resources.Get(r)
                        == old(initiator.resources).Get(r) + old(partner.resources).Get(r)
  {
    var paid := initiator.SpendResources(give);
    if !paid {
      return InitiatorShort;
    }
    var supplied := partner.SpendResources(request);
    if !supplied {
      initiator.Receive(give);
      RefundRestores(old(initiator.resources), give);
      return PartnerShort;
    }
    initiator.Receive(request);
    partner.Receive(give);
    return Swapped;
  }

  class Game {
    const players: seq<Player>
    var board: seq<Hex>
    var currentPlayerIndex: nat
    const totalPlayers: nat

    /**
     * The seating: at least one player, the player count recorded, the turn
     * index in range, and no player seated twice.
     */
    ghost predicate Seated()
      reads this
    {
      && |players| > 0 && totalPlayers == |players| && currentPlayerIndex < totalPlayers
      && forall i, j :: 0 <= i < j < |players| ==> players[i] != players[j]
    }

    /** Every owner entry of every hex names a seated player. */
    ghost predicate OwnersSeated()
      reads this
    {
      forall i, o :: 0 <= i < |board| && o in board[i].owners ==> o in players
    }

    /**
     * The game invariant: the seating, each player's victory points in step
     * with its structures, every structure on a hex of the board, every owner
     * entry a seated player, and owner lists that agree with the structures.
     * Balances play no part in it, so moving cards never endangers it.
     */
    ghost predicate Valid()
      reads this, players`settlements, players`cities, players`victoryPoints
    {
      && Seated() && |board| > 0
      && (forall p :: p in players ==> p.Valid())
      && (forall p, h :: p in players && (h in p.settlements || h in p.cities) ==> h < |board|)
      && OwnersSeated()
      && Registered()
    }

    /**
     * The owner lists and the structure lists tell the same story: a player
     * is listed on a hex once for every settlement and every city it has there.
     */
    ghost predicate Registered()
      reads this, players`settlements, players`cities
    {
      forall p, h: nat :: p in players && h < |board| ==>
        Occurrences(p, board[h].owners) == Occurrences(h, p.settlements) + Occurrences(h, p.cities)
    }

    /**
     * A new game: the human and three computer players (generous, greedy and
     * fair), a board of hexes nobody owns yet, the first player to move, and
     * five random cards for each player.
     */
    constructor (humanName: string, hexes: seq<Hex>, draws: seq<seq<Resource>>)
      requires |hexes| > 0 && forall i :: 0 <= i < |hexes| ==> hexes[i].owners == []
      requires |draws| == 4 && forall i :: 0 <= i < 4 ==> |draws[i]| == 5
      ensures Valid() && board == hexes && currentPlayerIndex == 0 && |players| == 4
      ensures Lineup(humanName)
      ensures forall i, r :: 0 <= i < 4 ==> players[i].resources.Get(r) == Occurrences(r, draws[i])
    {
      var human := new Player(humanName, true, Default);
      var ai1 := new Player("AI Player 1", false, Generous);
      var ai2 := new Player("AI Player 2", false, Greedy);
      var ai3 := new Player("AI Player 3", false, Fair);
      players := [human, ai1, ai2, ai3];
      board := hexes;
      currentPlayerIndex := 0;
      totalPlayers := 4;
      new;
      assert forall p :: p in players ==> p.settlements == [] && p.cities == [] && p.victoryPoints == 0;
      EmptyBoardValid();
      assert Lineup(humanName);
      assert forall i, r :: 0 <= i < 4 ==> players[i].resources.Get(r) == 0;
      DistributeStartingResources(draws);
    }

    /** Seated players who have built nothing, on a board nobody owns, make a valid game. */
    lemma EmptyBoardValid()
      requires Seated() && |board| > 0
      requires forall i :: 0 <= i < |board| ==> board[i].owners == []
      requires forall p :: p in players ==> p.settlements == [] && p.cities == [] && p.victoryPoints == 0
      ensures Valid()
    {
      forall p, h: nat | p in players && h < |board|
        ensures Occurrences(p, board[h].owners) == Occurrences(h, p.settlements) + Occurrences(h, p.cities)
      {
        assert board[h].owners == [];
      }
    }

    /**
     * The seats of a new game: the human first, under the name it gave, then
     * the generous, the greedy and the fair computer player.
     */
    predicate Lineup(humanName: string)
    {
      && |players| == 4
      && players[0].name == humanName && players[0].isHuman && players[0].personality == Default
      && !players[1].isHuman && players[1].personality == Generous
      && !players[2].isHuman && players[2].personality == Greedy
      && !players[3].isHuman && players[3].personality == Fair
    }

    /** next_player: the turn passes to the next seat, wrapping around after the last. */
    method NextPlayer()
      requires Valid()
      modifies this`currentPlayerIndex
      ensures Valid()
      ensures currentPlayerIndex == (old(currentPlayerIndex) + 1) % totalPlayers
      ensures currentPlayerIndex == if old(currentPlayerIndex) == totalPlayers - 1 then 0 else old(currentPlayerIndex) + 1
    {
      currentPlayerIndex := (currentPlayerIndex + 1) % totalPlayers;
    }

    /** give_random_resource: the pass bonus, one card of the drawn kind. */
    method GiveRandomResource(p: Player, drawn: Resource)
      requires Valid() && p in players
      modifies p`resources
      ensures Valid()
      ensures p.resources.Get(drawn) == old(p.resources).Get(drawn) + 1
      ensures forall r :: r != drawn ==> p.resources.Get(r) == old(p.resources).Get(r)
      ensures p.resources.Total() == old(p.resources).Total() + 1
    {
      p.AddResources(drawn, 1);
    }

    /**
     * distribute_starting_resources: each player, in seat order, receives
     * five single cards, of the kinds its list of draws names: as many of a
     * kind as the list names it, five in all.
     */
    method DistributeStartingResources(draws: seq<seq<Resource>>)
      requires Valid()
      requires |draws| == |players| && forall i :: 0 <= i < |draws| ==> |draws[i]| == 5
      modifies players`resources
      ensures Valid() && unchanged(this)
      ensures forall i, r :: 0 <= i < |players| ==>
        players[i].resources.Get(r) == old(players[i].resources.Get(r)) + Occurrences(r, draws[i])
    {
      var i := 0;
      while i < |players|
        invariant 0 <= i <= |players|
        invariant forall k, r :: 0 <= k < i ==>
          players[k].resources.Get(r) == old(players[k].resources.Get(r)) + Occurrences(r, draws[k])
        invariant forall k :: i <= k < |players| ==> players[k].resources == old(players[k].resources)
      {
        DealCards(players[i], draws[i]);
        i := i + 1;
      }
    }

    /**
     * The inner loop of distribute_starting_resources: the player receives
     * the drawn cards one at a time, five in all.
     */
    method DealCards(player: Player, cards: seq<Resource>)
      requires |cards| == 5
      modifies player`resources
      ensures forall r :: player.resources.Get(r) == old(player.resources.Get(r)) + Occurrences(r, cards)
    {
      var remaining := 5;
      ghost var dealt := 0;
      while remaining > 0
        invariant 0 <= remaining <= 5 && dealt == 5 - remaining
        invariant forall r :: player.resources.Get(r) == old(player.resources.Get(r)) + Occurrences(r, cards[..dealt])
      {
        var drawn := cards[5 - remaining];
        player.AddResources(drawn, 1);
        assert cards[..dealt + 1] == cards[..dealt] + [drawn];
        OccurrencesAppend(cards[..dealt], drawn);
        remaining := remaining - 1;
        dealt := dealt + 1;
      }
      assert cards[..5] == cards;
    }

    /**
     * distribute_resources: on a seven nothing changes; on any other roll,
     * every player collects its production from the hexes bearing the number,
     * and nothing but balances changes.
     */
    method DistributeResources(roll: int)
      requires Seated() && OwnersSeated()
      modifies players`resources
      ensures forall k :: 0 <= k < |players| ==>
        players[k].resources
          == old(players[k].resources).Plus(Production(board, roll, players[k], players[k].settlements, players[k].cities))
    {
      if roll == 7 {
        forall k | 0 <= k < |players| ensures players[k].resources == players[k].resources.Plus(Empty) {
          PlusNothing(players[k].resources, Empty);
        }
        return;
      }
      CollectAll(roll);
    }

    /** The loop of distribute_resources over the hexes in board order, for a roll other than seven. */
    method CollectAll(roll: int)
      requires Seated() && OwnersSeated()
      modifies players`resources
      ensures forall k :: 0 <= k < |players| ==>
        players[k].resources
          == old(players[k].resources).Plus(IncomeUpTo(board, |board|, roll, players[k], players[k].settlements, players[k].cities))
    {
      ghost var start := Ledger();
      forall k | 0 <= k < |players|
        ensures players[k].resources
          == start[k].Plus(IncomeUpTo(board, 0, roll, players[k], players[k].settlements, players[k].cities))
      {
        PlusNothing(start[k], IncomeUpTo(board, 0, roll, players[k], players[k].settlements, players[k].cities));
      }
      var i := 0;
      while i < |board|
        invariant 0 <= i <= |board|
        invariant forall k :: 0 <= k < |players| ==>
          players[k].resources
            == start[k].Plus(IncomeUpTo(board, i, roll, players[k], players[k].settlements, players[k].cities))
      {
        CollectNext(start, i, roll);
        i := i + 1;
      }
    }

    /** One pass of the loop of distribute_resources, stated as the income of the hexes so far. */
    method CollectNext(ghost start: seq<Bundle>, i: nat, roll: int)
      requires Seated() && OwnersSeated() && i < |board| && |start| == |players|
      requires forall k :: 0 <= k < |players| ==>
        players[k].resources
          == start[k].Plus(IncomeUpTo(board, i, roll, players[k], players[k].settlements, players[k].cities))
      modifies players`resources
      ensures forall k :: 0 <= k < |players| ==>
        players[k].resources
          == start[k].Plus(IncomeUpTo(board, i + 1, roll, players[k], players[k].settlements, players[k].cities))
    {
      ghost var before := Ledger();
      CollectFrom(i, roll);
      IncomeAccumulates(start, before, i, roll);
    }

    /** Collecting hex `i` on top of the income of the hexes before it is the income of the first i + 1 hexes. */
    lemma IncomeAccumulates(start: seq<Bundle>, before: seq<Bundle>, i: nat, roll: int)
      requires i < |board| && |start| == |players| && |before| == |players|
      requires forall k :: 0 <= k < |players| ==>
        before[k] == start[k].Plus(IncomeUpTo(board, i, roll, players[k], players[k].settlements, players[k].cities))
      requires forall k :: 0 <= k < |players| ==>
        players[k].resources == before[k].Plus(HexIncome(board[i], i, roll, players[k], players[k].settlements, players[k].cities))
      ensures forall k :: 0 <= k < |players| ==>
        players[k].resources
          == start[k].Plus(IncomeUpTo(board, i + 1, roll, players[k], players[k].settlements, players[k].cities))
    {
      forall k | 0 <= k < |players|
        ensures players[k].resources
          == start[k].Plus(IncomeUpTo(board, i + 1, roll, players[k], players[k].settlements, players[k].cities))
      {
        var p := players[k];
        PlusAssoc(start[k], IncomeUpTo(board, i, roll, p, p.settlements, p.cities),
                  HexIncome(board[i], i, roll, p, p.settlements, p.cities));
      }
    }

    /** One pass of the loop of distribute_resources: every player collects what hex number `i` pays it. */
    method CollectFrom(i: nat, roll: int)
      requires Seated() && OwnersSeated() && i < |board|
      modifies players`resources
      ensures forall p :: p in players ==>
        p.resources == old(p.resources).Plus(HexIncome(board[i], i, roll, p, p.settlements, p.cities))
    {
      var hex := board[i];
      if hex.number == roll && hex.owners != [] {
        forall o | o in hex.owners ensures o in players {
          assert o in board[i].owners;
        }
        PayHex(hex, i, roll);
      } else {
        forall p | p in players
          ensures p.resources == p.resources.Plus(HexIncome(hex, i, roll, p, p.settlements, p.cities))
        {
          IdleHexPaysNothing(hex, i, roll, p, p.settlements, p.cities);
          PlusNothing(p.resources, HexIncome(hex, i, roll, p, p.settlements, p.cities));
        }
      }
    }

    /**
     * The inner loop of distribute_resources for one hex whose number was
     * rolled: each owner entry, in list order, collects its yield in the
     * hex's kind, unless the hex is a desert or the yield is zero.
     */
    method PayHex(hex: Hex, h: nat, roll: int)
      requires hex.number == roll
      requires forall o :: o in hex.owners ==> o in players
      modifies players`resources
      ensures forall p :: p in players ==>
        p.resources == old(p.resources).Plus(HexIncome(hex, h, roll, p, p.settlements, p.cities))
    {
      var j := 0;
      while j < |hex.owners|
        invariant 0 <= j <= |hex.owners|
        invariant forall p, r :: p in players ==>
          p.resources.Get(r) == old(p.resources).Get(r) + KindIncomeUpTo(hex, j, h, roll, p, p.settlements, p.cities, r)
      {
        var owner := hex.owners[j];
        assert owner in hex.owners;
        var amount := 0;
        var settled := h in owner.settlements;
        var upgraded := h in owner.cities;
        if settled {
          amount := amount + 1;
        }
        if upgraded {
          amount := amount + 2;
        }
        ghost var was := owner.resources;
        label Head:
        if hex.terrain != Desert && amount > 0 {
          owner.AddResources(hex.terrain.kind, amount);
        }
        forall p, r | p in players
          ensures p.resources.Get(r) == old(p.resources).Get(r) + KindIncomeUpTo(hex, j + 1, h, roll, p, p.settlements, p.cities, r)
        {
          var y := Yield(h, p.settlements, p.cities);
          assert EntriesPay(hex.owners, j + 1, p, y) == EntriesPay(hex.owners, j, p, y) + if p == owner then y else 0;
          if p == owner {
            assert y == amount;
          } else {
            assert p.resources == old@Head(p.resources);
          }
        }
        j := j + 1;
      }
      forall p | p in players
        ensures p.resources == old(p.resources).Plus(HexIncome(hex, h, roll, p, p.settlements, p.cities))
      {
        SameCounts(p.resources, old(p.resources).Plus(HexIncome(hex, h, roll, p, p.settlements, p.cities)));
      }
    }

    /**
     * A settlement on hex `site`: the player joins the hex's owner list, the
     * hex joins the player's settlements, and the player scores a point.
     */
    method PlaceSettlement(p: Player, site: nat)
      requires Valid() && p in players && site < |board|
      modifies this`board, p`settlements, p`victoryPoints
      ensures Valid()
      ensures board == old(board)[site := old(board)[site].(owners := old(board)[site].owners + [p])]
      ensures p.settlements == old(p.settlements) + [site]
      ensures p.victoryPoints == old(p.victoryPoints) + 1
    {
      board := board[site := board[site].(owners := board[site].owners + [p])];
      p.settlements := p.settlements + [site];
      p.victoryPoints := p.victoryPoints + 1;
      forall q, h: nat | q in players && h < |board|
        ensures Occurrences(q, board[h].owners) == Occurrences(h, q.settlements) + Occurrences(h, q.cities)
      {
        var before := Occurrences(q, old(board)[h].owners);
        assert before == old(Occurrences(h, q.settlements) + Occurrences(h, q.cities));
        var gained := if q == p && h == site then 1 else 0;
        if h == site {
          OccurrencesAppend(old(board)[site].owners, p);
        } else {
          assert board[h] == old(board)[h];
        }
        assert Occurrences(q, board[h].owners) == before + gained;
        if q != p {
          assert q.settlements == old(q.settlements) && q.cities == old(q.cities);
        } else {
          OccurrencesAppend(old(p.settlements), site);
          assert Occurrences(h, q.settlements) == old(Occurrences(h, q.settlements)) + gained;
        }
      }
    }

    /**
     * The upgrade of the settlement on hex `h` to a city: the first entry
     * for `h` leaves the settlements, `h` joins the cities, and the player
     * scores one more point (a city is worth two, the settlement was worth one).
     */
    method PlaceCity(p: Player, h: nat)
      requires Valid() && p in players && h in p.settlements
      modifies p`settlements, p`cities, p`victoryPoints
      ensures Valid()
      ensures p.settlements == RemoveFirst(old(p.settlements), h)
      ensures p.cities == old(p.cities) + [h]
      ensures p.victoryPoints == old(p.victoryPoints) + 1
    {
      p.settlements := RemoveFirst(p.settlements, h);
      p.cities := p.cities + [h];
      p.victoryPoints := p.victoryPoints + 1;
      forall x | x in p.settlements ensures x in old(p.settlements) {
        assert Occurrences(x, p.settlements) > 0;
      }
      forall q, k: nat | q in players && k < |board|
        ensures Occurrences(q, board[k].owners) == Occurrences(k, q.settlements) + Occurrences(k, q.cities)
      {
        if q != p {
          assert q.settlements == old(q.settlements) && q.cities == old(q.cities);
        } else {
          assert Occurrences(q, board[k].owners) == old(Occurrences(k, p.settlements) + Occurrences(k, p.cities));
          assert Occurrences(h, old(p.settlements)) > 0;
          assert Occurrences(k, RemoveFirst(old(p.settlements), h)) == Occurrences(k, old(p.settlements)) - if k == h then 1 else 0;
          OccurrencesAppend(old(p.cities), h);
        }
      }
    }

    /** A road: the player's road count grows by one. */
    method PlaceRoad(p: Player)
      requires Valid() && p in players
      modifies p`roads
      ensures Valid()
      ensures p.roads == old(p.roads) + 1
    {
      p.roads := p.roads + 1;
    }

    /**
     * A settlement was founded on hex `site`: `p` is added to the hex's owner
     * list and `site` to its settlements, and it gains a victory point.
     */
    twostate predicate Founded(p: Player, site: nat)
      reads this, p
    {
      && site < |old(board)|
      && board == old(board)[site := old(board)[site].(owners := old(board)[site].owners + [p])]
      && p.settlements == old(p.settlements) + [site] && p.cities == old(p.cities)
      && p.victoryPoints == old(p.victoryPoints) + 1 && p.roads == old(p.roads)
    }

    /**
     * The settlement on hex `h` became a city: one occurrence of `h` moves
     * from the settlements to the cities, for one more victory point.
     */
    twostate predicate Upgraded(p: Player, h: nat)
      reads this, p
    {
      && h in old(p.settlements)
      && board == old(board)
      && p.settlements == RemoveFirst(old(p.settlements), h) && p.cities == old(p.cities) + [h]
      && p.victoryPoints == old(p.victoryPoints) + 1 && p.roads == old(p.roads)
    }

    /** A road was built: one more road and nothing else built. */
    twostate predicate Paved(p: Player)
      reads this, p
    {
      && board == old(board) && p.settlements == old(p.settlements) && p.cities == old(p.cities)
      && p.victoryPoints == old(p.victoryPoints) && p.roads == old(p.roads) + 1
    }

    /** Nothing was built: the board and the player's structures are as they were. */
    twostate predicate Unbuilt(p: Player)
      reads this, p
    {
      && board == old(board) && p.settlements == old(p.settlements) && p.cities == old(p.cities)
      && p.victoryPoints == old(p.victoryPoints) && p.roads == old(p.roads)
    }

    /**
     * ai_build: the computer player pays for and builds the first structure
     * it can afford in the order settlement, city, road (AiChoice). The
     * settlement goes on `site`, drawn from the hexes where it has no
     * settlement yet, or from the whole board when there are none; the city
     * replaces the settlement on `upgrade`, drawn from its settlements.
     * When it can afford nothing, nothing changes.
     */
    method AiBuild(p: Player, site: nat, upgrade: nat) returns (built: bool)
      requires Valid() && p in players
      requires site < |board| && (OpenHexes(board, p) != [] ==> site in OpenHexes(board, p))
      requires p.settlements != [] ==> upgrade in p.settlements
      modifies this`board, p`resources, p`settlements, p`cities, p`victoryPoints, p`roads
      ensures Valid()
      ensures built <==> AiChoice(old(p.resources), old(p.settlements) != []) != Nothing
      ensures p.resources == old(p.resources).Minus(CostOf(AiChoice(old(p.resources), old(p.settlements) != [])))
      ensures AiChoice(old(p.resources), old(p.settlements) != []) == Settlement ==> Founded(p, site)
      ensures AiChoice(old(p.resources), old(p.settlements) != []) == City ==> Upgraded(p, upgrade)
      ensures AiChoice(old(p.resources), old(p.settlements) != []) == Road ==> Paved(p)
      ensures AiChoice(old(p.resources), old(p.settlements) != []) == Nothing ==> Unbuilt(p)
    {
      ghost var choice := AiChoice(p.resources, p.settlements != []);
      var paid := p.SpendResources(SettlementCost);
      if paid {
        assert choice == Settlement;
        PlaceSettlement(p, site);
        return true;
      }
      built := AiUpgradeOrPave(p, upgrade);
    }

    /**
     * The rest of ai_build, once a settlement is out of reach: a city on
     * `upgrade` when there is a settlement and it can be paid for, otherwise
     * a road when that can be, otherwise nothing.
     */
    method AiUpgradeOrPave(p: Player, upgrade: nat) returns (built: bool)
      requires Valid() && p in players && !p.resources.Covers(SettlementCost)
      requires p.settlements != [] ==> upgrade in p.settlements
      modifies p`resources, p`settlements, p`cities, p`victoryPoints, p`roads
      ensures Valid()
      ensures built <==> AiChoice(old(p.resources), old(p.settlements) != []) != Nothing
      ensures p.resources == old(p.resources).Minus(CostOf(AiChoice(old(p.resources), old(p.settlements) != [])))
      ensures AiChoice(old(p.resources), old(p.settlements) != []) == City ==> Upgraded(p, upgrade)
      ensures AiChoice(old(p.resources), old(p.settlements) != []) == Road ==> Paved(p)
      ensures AiChoice(old(p.resources), old(p.settlements) != []) == Nothing ==> Unbuilt(p)
    {
      ghost var choice := AiChoice(p.resources, p.settlements != []);
      if p.settlements != [] {
        var paid := p.SpendResources(CityCost);
        if paid {
          assert choice == City;
          PlaceCity(p, upgrade);
          return true;
        }
      }
      var paid := p.SpendResources(RoadCost);
      if paid {
        assert choice == Road;
        PlaceRoad(p);
        return true;
      }
      assert choice == Nothing;
      MinusNothing(p.resources);
      return false;
    }

    /**
     * The human player's build menu. `entry` is the menu entry typed (with
     * surrounding blanks already stripped) and `typed` the hex number typed
     * at the follow-up prompt, None when that was not a number. The cost is
     * paid before the hex is asked for, so a purchase whose hex is not
     * accepted is paid for and not built.
     */
    method HandleBuildAction(p: Player, entry: string, typed: Option<int>) returns (built: bool)
      requires Valid() && p in players
      modifies this`board, p`resources, p`settlements, p`cities, p`victoryPoints, p`roads
      ensures Valid()
      ensures built <==> Completes(MenuPurchase(entry, old(p.resources), old(p.settlements) != []),
                                   typed, |old(board)|, old(p.settlements))
      ensures p.resources == old(p.resources).Minus(CostOf(MenuPurchase(entry, old(p.resources), old(p.settlements) != [])))
      ensures built && MenuPurchase(entry, old(p.resources), old(p.settlements) != []) == Settlement ==>
        typed.Some? && 0 <= typed.value - 1 && Founded(p, typed.value - 1)
      ensures built && MenuPurchase(entry, old(p.resources), old(p.settlements) != []) == City ==>
        typed.Some? && 0 <= typed.value - 1 && Upgraded(p, typed.value - 1)
      ensures built && MenuPurchase(entry, old(p.resources), old(p.settlements) != []) == Road ==> Paved(p)
      ensures !built ==> Unbuilt(p)
    {
      if entry == "1" {
        built := MenuSettlement(p, entry, typed);
      } else if entry == "2" {
        built := MenuRoad(p, entry, typed);
      } else if entry == "3" {
        built := MenuCity(p, entry, typed);
      } else {
        assert MenuPurchase(entry, p.resources, p.settlements != []) == Nothing;
        MinusNothing(p.resources);
        return false;
      }
    }

    /** Menu entry 1 of the build menu: pay for a settlement, then place it on the hex typed, if that is on the board. */
    method MenuSettlement(p: Player, entry: string, typed: Option<int>) returns (built: bool)
      requires entry == "1"
      requires Valid() && p in players
      modifies this`board, p`resources, p`settlements, p`cities, p`victoryPoints, p`roads
      ensures Valid()
      ensures built <==> Completes(MenuPurchase(entry, old(p.resources), old(p.settlements) != []),
                                   typed, |old(board)|, old(p.settlements))
      ensures p.resources == old(p.resources).Minus(CostOf(MenuPurchase(entry, old(p.resources), old(p.settlements) != [])))
      ensures built && MenuPurchase(entry, old(p.resources), old(p.settlements) != []) == Settlement ==>
        typed.Some? && 0 <= typed.value - 1 && Founded(p, typed.value - 1)
      ensures !built ==> Unbuilt(p)
    {
      ghost var purchase := MenuPurchase(entry, p.resources, p.settlements != []);
      var paid := p.SpendResources(SettlementCost);
      if !paid {
        assert purchase == Nothing;
        MinusNothing(p.resources);
        return false;
      }
      assert purchase == Settlement;
      if typed.None? || !(0 <= typed.value - 1 < |board|) {
        return false;
      }
      var hex: nat := typed.value - 1;
      PlaceSettlement(p, hex);
      return true;
    }

    /** Menu entry 2 of the build menu: pay for a road and build it. */
    method MenuRoad(p: Player, entry: string, typed: Option<int>) returns (built: bool)
      requires entry == "2"
      requires Valid() && p in players
      modifies this`board, p`resources, p`settlements, p`cities, p`victoryPoints, p`roads
      ensures Valid()
      ensures built <==> Completes(MenuPurchase(entry, old(p.resources), old(p.settlements) != []),
                                   typed, |old(board)|, old(p.settlements))
      ensures p.resources == old(p.resources).Minus(CostOf(MenuPurchase(entry, old(p.resources), old(p.settlements) != [])))
      ensures built && MenuPurchase(entry, old(p.resources), old(p.settlements) != []) == Road ==> Paved(p)
      ensures !built ==> Unbuilt(p)
    {
      ghost var purchase := MenuPurchase(entry, p.resources, p.settlements != []);
      var paid := p.SpendResources(RoadCost);
      if !paid {
        assert purchase == Nothing;
        MinusNothing(p.resources);
        return false;
      }
      assert purchase == Road;
      PlaceRoad(p);
      return true;
    }

    /**
     * Menu entry 3 of the build menu: with a settlement to upgrade, pay for a
     * city, then place it on the hex typed, if one of the settlements is there.
     */
    method MenuCity(p: Player, entry: string, typed: Option<int>) returns (built: bool)
      requires entry == "3"
      requires Valid() && p in players
      modifies this`board, p`resources, p`settlements, p`cities, p`victoryPoints, p`roads
      ensures Valid()
      ensures built <==> Completes(MenuPurchase(entry, old(p.resources), old(p.settlements) != []),
                                   typed, |old(board)|, old(p.settlements))
      ensures p.resources == old(p.resources).Minus(CostOf(MenuPurchase(entry, old(p.resources), old(p.settlements) != [])))
      ensures built && MenuPurchase(entry, old(p.resources), old(p.settlements) != []) == City ==>
        typed.Some? && 0 <= typed.value - 1 && Upgraded(p, typed.value - 1)
      ensures !built ==> Unbuilt(p)
    {
      ghost var purchase := MenuPurchase(entry, p.resources, p.settlements != []);
      if p.settlements == [] {
        assert purchase == Nothing;
        MinusNothing(p.resources);
        return false;
      }
      var paid := p.SpendResources(CityCost);
      if !paid {
        assert purchase == Nothing;
        MinusNothing(p.resources);
        return false;
      }
      assert purchase == City;
      if typed.None? || typed.value - 1 !in p.settlements {
        return false;
      }
      var hex: nat := typed.value - 1;
      PlaceCity(p, hex);
      return true;
    }

    /** The balances of the seated players, in seat order. */
    function Ledger(): (bs: seq<Bundle>)
      reads this, players`resources
      ensures |bs| == |players| && forall k :: 0 <= k < |players| ==> bs[k] == players[k].resources
    {
      Balances(SeatsOf(players))
    }

    /** The supplier count of trade_resources: the other players that could pay the request. */
    method CountSuppliers(ini: nat, request: Bundle) returns (suppliers: nat)
      requires ini < |players|
      ensures suppliers == Suppliers(SeatsOf(players), ini, request)
    {
      ghost var seats := SeatsOf(players);
      suppliers := 0;
      var k := 0;
      while k < |players|
        invariant k <= |players|
        invariant suppliers == SuppliersUpTo(seats, ini, request, k)
      {
        if k != ini {
          var can := CanSupply(players[k], request);
          if can {
            suppliers := suppliers + 1;
          }
        }
        k := k + 1;
      }
    }

    /**
     * The visit of partner `b` by initiator `a`: what it comes to is Round of
     * the two players, and only a completed trade changes their balances.
     */
    method TryPartner(a: Player, b: Player, offer: Bundle, request: Bundle, scarcity: bool, reply: Reply) returns (step: Step)
      requires a != b
      modifies a`resources, b`resources
      ensures step == Round(old(SeatOf(a)), old(SeatOf(b)), offer, request, scarcity, reply)
      ensures step.Done? ==>
        && old(a.resources).Covers(step.give) && old(b.resources).Covers(request)
        && a.resources == old(a.resources).Minus(step.give).Plus(request)
        && b.resources == old(b.resources).Minus(request).Plus(step.give)
      ensures !step.Done? ==> a.resources == old(a.resources) && b.resources == old(b.resources)
    {
      ghost var seatA, seatB := SeatOf(a), SeatOf(b);
      if b.isHuman {
        match reply.answer
        case Yes =>
          var e := Swap(a, b, offer, request);
          step := OfferStep(e, offer);
        case No =>
          step := Next;
        case Counter =>
          if reply.extra.None? || reply.amount.None? {
            step := Next;
          } else {
            var counter := Raise(offer, reply.extra.value, reply.amount.value);
            var agreed: bool;
            if a.isHuman {
              agreed := reply.acceptsCounter;
            } else {
              var v := Evaluate(a.personality, a.resources, counter, request, scarcity, reply.draw);
              agreed := v.accepted;
            }
            if agreed {
              var e := Swap(a, b, counter, request);
              step := CounterStep(e, counter);
            } else {
              step := Next;
            }
          }
      } else {
        var v := Evaluate(b.personality, b.resources, offer, request, scarcity, reply.draw);
        if v.accepted {
          var e := Swap(a, b, offer, request);
          step := OfferStep(e, offer);
        } else if v.counter.Some? && a.isHuman && reply.acceptsCounter {
          var e := Swap(a, b, v.counter.value, request);
          step := CounterStep(e, v.counter.value);
        } else {
          step := Next;
        }
      }
      assert step == Round(seatA, seatB, offer, request, scarcity, reply);
    }

    /**
     * trade_resources with an offer and a request fixed: partners are visited
     * in seat order until one trades (true) or the initiator turns out unable
     * to pay its offer (false); the balances end as the session settles them.
     */
    method TradeResources(ini: nat, offer: Bundle, request: Bundle, replies: seq<Reply>) returns (traded: bool)
      requires Seated() && ini < |players| && |replies| == |players|
      modifies players`resources
      ensures traded <==> Trade(old(SeatsOf(players)), ini, offer, request, replies).Deal?
      ensures Ledger() == Settled(old(Ledger()), ini, request, Trade(old(SeatsOf(players)), ini, offer, request, replies))
    {
      ghost var seats := SeatsOf(players);
      var suppliers := CountSuppliers(ini, request);
      traded := VisitAll(seats, ini, offer, request, suppliers == 1, replies);
    }

    /**
     * trade_resources started by the human player: the kinds and numbers it
     * typed are read and checked first (see Proposal), and only a readable,
     * affordable proposal opens a session.
     */
    method TradeFromInput(ini: nat, offerKind: Option<Resource>, offerAmount: Option<nat>,
                          requestKind: Option<Resource>, requestAmount: Option<nat>, replies: seq<Reply>)
      returns (traded: bool)
      requires Seated() && ini < |players| && |replies| == |players|
      modifies players`resources
      ensures Proposal(old(players[ini].resources), offerKind, offerAmount, requestKind, requestAmount).None? ==>
        !traded && Ledger() == old(Ledger())
      ensures Proposal(old(players[ini].resources), offerKind, offerAmount, requestKind, requestAmount).Some? ==>
        var pr := Proposal(old(players[ini].resources), offerKind, offerAmount, requestKind, requestAmount).value;
        && (traded <==> Trade(old(SeatsOf(players)), ini, pr.0, pr.1, replies).Deal?)
        && Ledger() == Settled(old(Ledger()), ini, pr.1, Trade(old(SeatsOf(players)), ini, pr.0, pr.1, replies))
    {
      if offerKind.None? || offerAmount.None? {
        return false;
      }
      if players[ini].resources.Get(offerKind.value) < offerAmount.value {
        return false;
      }
      if requestKind.None? || requestAmount.None? {
        return false;
      }
      traded := TradeResources(ini, Single(offerKind.value, offerAmount.value),
                               Single(requestKind.value, requestAmount.value), replies);
    }

    /**
     * ai_trade_resources: a computer player offers one card of `offerKind`
     * for one of `requestKind` (the two random picks, necessarily different
     * kinds), provided it holds such a card.
     */
    method AiTradeResources(ini: nat, offerKind: Resource, requestKind: Resource, replies: seq<Reply>)
      returns (traded: bool)
      requires Seated() && ini < |players| && |replies| == |players|
      requires offerKind != requestKind
      modifies players`resources
      ensures old(players[ini].resources).Get(offerKind) < AiLot ==> !traded && Ledger() == old(Ledger())
      ensures old(players[ini].resources).Get(offerKind) >= AiLot ==>
        && (traded <==> Trade(old(SeatsOf(players)), ini, Single(offerKind, AiLot), Single(requestKind, AiLot), replies).Deal?)
        && Ledger() == Settled(old(Ledger()), ini, Single(requestKind, AiLot),
                               Trade(old(SeatsOf(players)), ini, Single(offerKind, AiLot), Single(requestKind, AiLot), replies))
    {
      if players[ini].resources.Get(offerKind) < AiLot {
        return false;
      }
      traded := TradeResources(ini, Single(offerKind, AiLot), Single(requestKind, AiLot), replies);
    }

    /** The partner loop of trade_resources: seats in order, the initiator's skipped, until one visit does not move on. */
    method VisitAll(ghost seats: seq<Seat>, ini: nat, offer: Bundle, request: Bundle, scarcity: bool, replies: seq<Reply>)
      returns (traded: bool)
      requires Seated() && ini < |players| && |replies| == |players| && |seats| == |players|
      requires forall m :: 0 <= m < |players| ==> seats[m] == SeatOf(players[m])
      modifies players`resources
      ensures traded <==> Session(Visits(seats, ini, offer, request, scarcity, replies, |seats|), 0).Deal?
      ensures Ledger() == Settled(Balances(seats), ini, request, Session(Visits(seats, ini, offer, request, scarcity, replies, |seats|), 0))
    {
      ghost var steps := Visits(seats, ini, offer, request, scarcity, replies, |seats|);
      ghost var outcome := Session(steps, 0);
      var k := 0;
      while k < |players|
        invariant k <= |players|
        invariant forall m :: 0 <= m < |players| ==> seats[m] == SeatOf(players[m])
        invariant Session(steps, k) == outcome
      {
        var step := Visit(seats, ini, k, offer, request, scarcity, replies);
        SessionAdvance(steps, k);
        if step.Done? {
          return true;
        }
        if step == Abort {
          LedgerIs(seats);
          return false;
        }
        k := k + 1;
      }
      LedgerIs(seats);
      return false;
    }

    /**
     * One pass of the partner loop of trade_resources, for the seat `k`:
     * its visit against the starting balances (the initiator's own seat is
     * passed over), and only a trade changing any balance.
     */
    method Visit(ghost seats: seq<Seat>, ini: nat, k: nat, offer: Bundle, request: Bundle, scarcity: bool, replies: seq<Reply>)
      returns (step: Step)
      requires Seated() && ini < |players| && k < |players| && |seats| == |players| && |replies| == |players|
      requires forall m :: 0 <= m < |players| ==> seats[m] == SeatOf(players[m])
      modifies players`resources
      ensures step == Visits(seats, ini, offer, request, scarcity, replies, |seats|)[k]
      ensures step.Done? ==> Ledger() == Settled(Balances(seats), ini, request, Deal(k, step.give))
      ensures !step.Done? ==> forall m :: 0 <= m < |players| ==> seats[m] == SeatOf(players[m])
    {
      VisitsAt(seats, ini, offer, request, scarcity, replies, |seats|, k);
      if k == ini {
        return Next;
      }
      step := TryPartner(players[ini], players[k], offer, request, scarcity, replies[k]);
      if step.Done? {
        SettleDeal(Balances(seats), ini, k, step.give, request);
      }
    }

    /** A ledger whose every seat matches the snapshot is the snapshot's balances. */
    lemma LedgerIs(seats: seq<Seat>)
      requires |seats| == |players|
      requires forall m :: 0 <= m < |players| ==> seats[m] == SeatOf(players[m])
      ensures Ledger() == Balances(seats)
    {
    }

    /** After a swap between seats `ini` and `k`, and nothing else, the ledger is the settled one. */
    lemma SettleDeal(balances: seq<Bundle>, ini: nat, k: nat, give: Bundle, request: Bundle)
      requires ini < |players| && k < |players| && ini != k && |balances| == |players|
      requires balances[ini].Covers(give) && balances[k].Covers(request)
      requires players[ini].resources == balances[ini].Minus(give).Plus(request)
      requires players[k].resources == balances[k].Minus(request).Plus(give)
      requires forall m :: 0 <= m < |players| && m != ini && m != k ==> players[m].resources == balances[m]
      ensures Ledger() == Settled(balances, ini, request, Deal(k, give))
    {
      var settled := Settled(balances, ini, request, Deal(k, give));
      assert forall m :: 0 <= m < |players| ==> Ledger()[m] == settled[m];
    }
  }
}
