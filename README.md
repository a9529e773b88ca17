# Catan resource economy in Dafny

This project models the resource economy of `catan.py`, a one-file Catan game for one human and
three computer players. It covers:

- the players' resource ledgers (`Player.add_resources`, `spend_resources`,
  `missing_for_build`, `can_build`);
- the computer players' trade policy (`Player.evaluate_trade_ai`), with its generous, fair and
  greedy personalities and the default fallback;
- production on a dice roll (`Game.distribute_resources`), the starting hand
  (`distribute_starting_resources`) and the pass bonus (`give_random_resource`);
- building, for the computer (`ai_build`) and through the human's build menu
  (`handle_build_action`);
- the trade session (`trade_resources`) and the computer's entry point to it
  (`ai_trade_resources`);
- the turn counter (`next_player`).

Modules, one per file:

- `Resources` (`resources.dfy`): the five resource kinds and `Bundle`, a five-field record
  standing for the source's `{resource: count}` dictionaries. A key the dictionary leaves out
  reads as zero. It also holds the build costs and the shortfall `missing_for_build` computes.
- `Players` (`players.dfy`): class `Player`. Its methods update the ledger in place, as the
  source's do. Its `Valid()` keeps the victory points in step with the structures.
- `TradePolicy` (`trade_policy.dfy`): `evaluate_trade_ai` as the pure function `Evaluate`.
  - Each comparison of the floating-point ratio `sum(offer)/sum(request)` with 1.0 or 0.9
    becomes an exact cross-multiplication. A ratio with nothing requested counts as infinite.
  - The counter-offer's increase `max(1, int(k*R - O))` is computed in tenths and truncates,
    as Python's `int()` does.
- `Board` (`board.dfy`): hexes with their owner lists. `Production` specifies what a roll pays
  a player.
- `Building` (`building.dfy`): the computer's order of preference (`AiChoice`), and what the
  human's menu entry pays for (`MenuPurchase`).
- `Negotiation` (`negotiation.dfy`): the trade session as a function of the starting balances
  and of everything typed or drawn during it (`Trade`). A partner that cannot pay gets its
  initiator refunded in full, so no balance changes until a trade completes. Every partner is
  therefore visited against the starting balances (`Visits`). The session ends at the first
  visit that does not move on (`Session`).
- `Catan` (`game.dfy`): class `Game`, holding the players, the board and the turn index.
  - Its methods do what the source's do, loop by loop, and are proved against the functions
    above. `DistributeResources` ends with every balance raised by `Production`.
    `TradeResources` ends with the balances `Settled` by the outcome of `Trade`.
  - `Game.Valid()` ties the owner lists of the hexes to the players' settlement and city
    lists. Every build preserves it.

Randomness and input are parameters: the dice roll, the five starting draws, the pass bonus
draw, the computer's hex picks, the kind a counter-offer raises, the menu entry, the typed hex
number, and the human's trade answers. A prompt whose answer is not a number, or not a
resource name, arrives as `None`.

Python's `int()` truncates, so a counter-offer's increase `max(1, int(k*R - O))` is rounded
down. Lemma `TradePolicy.GreedyIncreaseTruncated` shows the consequence. On requests of fewer
than ten cards where fewer cards are offered than requested, the greedy factor 1.1 is lost, and
a greedy player's counter-offer only brings the offer to parity. (On an even n-for-n offer the
increase is lifted to 1, so the counter holds n + 1 cards.) Asked for two ore against one brick, a greedy player not helped by the
trade counters with {brick: 2}; rounding up would give {brick: 3}.

At catan.py:525 a computer initiator judges a human partner's counter as if it were the side
receiving the counter and giving the request. The model keeps this as written.

## Model

| member | source | states |
|---|---|---|
| Resources.Position | catan.py:16 | every resource kind has exactly one place in the ledger order brick, lumber, ore, grain, wool |
| Resources.Bundle.With | catan.py:24-25 | replacing the count of one kind changes that count and keeps every other |
| Resources.Bundle.Plus | catan.py:469-473 | crediting a bundle raises each kind by the bundle's count of it |
| Resources.Bundle.Minus | catan.py:31-32 | paying a covered bundle lowers each kind by the bundle's count of it |
| Resources.Single | catan.py:441-442 | `{r: n}` holds n of kind r and none of any other kind |
| Resources.CoversEach | catan.py:28-30 | affordability is exactly "at least the cost in every kind", the check loop of spend_resources |
| Resources.MinusTotal | catan.py:27-33 | a successful payment leaves exactly the cost's number of cards fewer |
| Resources.RefundRestores | catan.py:476-479 | paying a bundle and being refunded it restores the balance exactly |
| Resources.Shortfall | catan.py:38-43 | the total shortfall is zero exactly when the balance covers the cost, and never exceeds the cost's size |
| Resources.GapSumAll | catan.py:38-43 | adding the gaps kind by kind, as the loop does, gives the shortfall |
| Resources.ShortfallAntitone | catan.py:72-77 | adding cards to a balance never raises its shortfall for any cost |
| Resources.SettlementCoversRoad | catan.py:10 | whoever can pay for a settlement can pay for a road |
| Players.Player.constructor | catan.py:14-22 | a new player has an empty ledger, no structures and no points |
| Players.Player.AddResources | catan.py:24-25 | one kind rises by the amount, every other kind is unchanged, the card count rises by the amount |
| Players.Player.SpendResources | catan.py:27-33 | succeeds exactly when the balance covers the cost; on success the balance is lowered by the cost, on failure it is unchanged |
| Players.Player.Receive | catan.py:469-473 | the credit loop over a bundle's items adds the bundle |
| Players.Player.MissingForBuild | catan.py:38-43 | the accumulated count is the shortfall, zero exactly when the cost is affordable |
| Players.Player.CanBuild | catan.py:45-46 | affordable exactly when nothing is missing for the cost |
| TradePolicy.Increase | catan.py:97 | the counter increase is at least 1 and is the truncated tenth of k*R - O whenever that is 1 or more |
| TradePolicy.Offered | catan.py:81 | the offered kinds are exactly those the offer holds a card of; none exactly when the offer is empty |
| TradePolicy.OfferedAmongAll | catan.py:81 | filtering all kinds keeps exactly the offered kinds |
| TradePolicy.ProposeCounter | catan.py:80-88 | no counter exactly when nothing is offered; otherwise the offer with one offered kind raised by the increase |
| TradePolicy.EveryOfferedKindDrawable | catan.py:81-85 | every kind the offer holds is the kind raised for some random pick, so the counter-offer reaches each offered kind |
| TradePolicy.Helps | catan.py:58-78 | the trade helps when the simulated balance after it lacks fewer cards for a settlement or for a city |
| TradePolicy.Acceptable | catan.py:90-136 | the acceptance column of the personality table: generous at ratio 1.0 or when helped, fair at 1.0 or helped at 0.9, greedy above 1.0 or helped at 1.0, default at 1.0 |
| TradePolicy.CounterTenths | catan.py:90-136 | the counter factor of each branch: 0.9 for a helped fair player, 1.1 for an unhelped greedy one, 1.0 otherwise |
| TradePolicy.Evaluate | catan.py:48-136 | declines with no counter when the request cannot be paid; accepts exactly as the personality table says; an acceptance has no counter; a counter exists exactly when a payable request is refused and something is offered, and raises one offered kind by the branch's increase |
| TradePolicy.CounterDominates | catan.py:80-88 | a counter-offer holds at least the offer in every kind and more cards in all |
| TradePolicy.RaisedDominates | catan.py:84-86 | raising one kind by n covers the original and adds n cards |
| TradePolicy.ParityIncrease | catan.py:97 | with k = 1.0 the counter brings the offered count exactly to the requested one |
| TradePolicy.GreedyIncreaseTruncated | catan.py:127 | below ten requested cards, when fewer cards are offered than requested, the greedy 1.1 counter only reaches parity, a ratio that is not above 1.0 |
| Board.EntriesPayCount | catan.py:181-192 | a player listed k times on a hex collects k times its yield there |
| Board.EntriesPayAbsent | catan.py:181-192 | owner entries that do not name a player pay it nothing |
| Board.HexIncomeClosedForm | catan.py:180-192 | a rolled land hex pays the player, in its own kind only, one entry's yield for every owner entry naming it; a desert or a hex with another number pays nothing |
| Board.Yield | catan.py:182-189 | one owner entry collects 1 for a settlement on the hex plus 2 for a city on it |
| Board.IncomeUpTo | catan.py:179-192 | the income of the first n hexes, collected in board order |
| Board.IdleHexPaysNothing | catan.py:180 | a hex whose number was not rolled, or that nobody owns, pays nobody |
| Board.Production | catan.py:165-172 | a seven pays nothing |
| Board.NoMatchingHexNoIncome | catan.py:180-190 | a kind is only produced by land of that kind bearing the rolled number |
| Board.StrangerCollectsNothing | catan.py:181 | a player on no owner list collects nothing from any roll |
| Board.OpenHexes | catan.py:368 | the hexes not listing the player, each once, in board order |
| Building.AiChoice | catan.py:366-391 | the computer's choice: a settlement if payable, else a city if it has a settlement and can pay, else a road if payable, else nothing |
| Building.ChoiceAffordable | catan.py:366-391 | the computer only builds what it can pay for, and a city only with a settlement to upgrade |
| Building.NothingIffUnaffordable | catan.py:366-391 | the computer builds nothing exactly when it cannot pay for a road nor for an upgrade it could make |
| Building.ChoiceIsFirstAffordable | catan.py:366-391 | a structure is chosen only when every one before it in the order settlement, city, road is out of reach |
| Building.MenuPurchaseAffordable | catan.py:276-334 | the menu only charges what is affordable, a city only to a player with a settlement, and nothing for an unknown entry |
| Building.MenuPurchase | catan.py:276-331 | what menu entry 1, 2 or 3 charges: the structure when affordable (a city only with a settlement), nothing otherwise |
| Building.Completes | catan.py:280-293 | a paid settlement is placed only on a typed hex on the board, a city only on a typed hex among the settlements, a road always |
| Negotiation.Raise | catan.py:496-497 | a human's counter adds the typed amount to the typed kind and keeps every other kind |
| Negotiation.Round | catan.py:461-609 | one partner's visit: a human partner's yes, counter or no, a computer partner's policy, each swap paying the give then the request, refunded when the partner cannot pay |
| Negotiation.Session | catan.py:461-612 | the first visit that trades or aborts ends the session (the returns at 475, 483, 511, 536, 567, 575 and 591); all visits moving on is no trade |
| Negotiation.Trade | catan.py:445-612 | the session over all seats, scarcity meaning exactly one other seat could pay the request |
| Negotiation.Settled | catan.py:469-473 | a trade moves the give from the initiator to the partner and the request back; anything else leaves the balances |
| Negotiation.VisitsAt | catan.py:461-462 | seats are visited in seat order, the initiator's own seat passed over, each against the original offer |
| Negotiation.SessionAdvance | catan.py:461-612 | a trade or an abort ends the session at that visit; otherwise the next seat decides |
| Negotiation.SuppliersCount | catan.py:447-456 | the supplier count is the number of other seats that could pay the request |
| Negotiation.Conservation | catan.py:467-473 | a session never changes how many cards of each kind the seats hold together |
| Negotiation.RoundDone | catan.py:466-608 | a visit that trades is a swap both sides could pay, and the initiator gives at least its offer |
| Negotiation.RoundAbort | catan.py:481-483 | a visit aborts the session only when the initiator cannot pay its own offer |
| Negotiation.ComputersTradeTheOffer | catan.py:553-606 | between two computer players a trade is exactly the original offer |
| Negotiation.SessionDeal | catan.py:461-612 | the trade is made with the first seat whose visit did not move on, and every earlier visit moved on |
| Negotiation.SessionNoDeal | catan.py:611-612 | no trade and no abort exactly when every visit moves on |
| Negotiation.SessionAborted | catan.py:481-483 | an aborted session has a visit that aborted |
| Negotiation.SessionNeverAborts | catan.py:573-575 | an initiator that can pay its offer is never aborted |
| Negotiation.TradeShape | catan.py:461-612 | a completed trade is with another seat, both could pay, the initiator gave at least the offer, and exactly the offer between computers |
| Negotiation.DealHasSupplier | catan.py:447-458 | a completed trade means at least one supplier was counted |
| Negotiation.Proposal | catan.py:413-442 | an unreadable kind or number, or an offer beyond the initiator's cards of that kind, gives no trade; otherwise `{offer_res: offer_amt}` for `{request_res: request_amt}` |
| Negotiation.ProposalNeverAborts | catan.py:427-429 | a typed proposal that passed its checks never aborts its session |
| Catan.AiTradeNeverAborts | catan.py:621-628 | a computer's one-card proposal, made only when it holds the card, never aborts its session |
| Catan.RemoveFirst | catan.py:320 | list.remove drops one occurrence of the hex and keeps every other count |
| Catan.HandTotal | catan.py:197-204 | a hand dealt one card per draw grows by as many cards as there are draws |
| Catan.CanSupply | catan.py:450-454 | the early-exit supplier test answers exactly whether the player covers the request |
| Catan.Swap | catan.py:467-480 | the swap succeeds exactly when both sides can pay; it moves the give one way and the request the other; a failed swap changes nothing; each kind is conserved |
| Catan.Game.constructor | catan.py:140-151 | four seats (the human, then generous, greedy and fair computers), turn 0, a valid game, and each player's hand the count of its draws |
| Catan.Game.EmptyBoardValid | catan.py:162 | a board nobody owns with players who built nothing is a valid game |
| Catan.Game.NextPlayer | catan.py:630-631 | the turn index steps by one and wraps to 0 after the last seat |
| Catan.Game.GiveRandomResource | catan.py:265-269 | the drawn kind rises by one card and nothing else changes |
| Catan.Game.DistributeStartingResources | catan.py:197-204 | each player receives, per kind, as many cards as its draws name; nothing else changes |
| Catan.Game.DealCards | catan.py:199-203 | the countdown deals the five drawn cards one at a time |
| Catan.Game.DistributeResources | catan.py:164-195 | every balance rises by exactly the player's production for the roll, and nothing on a seven |
| Catan.Game.CollectAll | catan.py:179-192 | after the loop over the hexes each balance has collected the income of all hexes |
| Catan.Game.CollectNext | catan.py:179-192 | each pass adds the next hex's income to the income so far |
| Catan.Game.IncomeAccumulates | catan.py:179 | the income of the first i hexes plus hex i is the income of the first i + 1 |
| Catan.Game.CollectFrom | catan.py:179-192 | one hex pays each player its HexIncome, and an idle hex pays nothing |
| Catan.Game.PayHex | catan.py:181-192 | the owner loop credits each entry's yield in the hex's kind, deserts and zero yields excepted |
| Catan.Game.PlaceSettlement | catan.py:285-287 | the player joins the hex's owners, the hex joins its settlements, one point more, and the game stays valid |
| Catan.Game.PlaceCity | catan.py:320-322 | one settlement on the hex becomes a city, one point more, and the game stays valid |
| Catan.Game.PlaceRoad | catan.py:299 | one more road and the game stays valid |
| Catan.Game.AiBuild | catan.py:366-391 | builds exactly when AiChoice is not Nothing, pays exactly its cost, and makes exactly that structure's change (or none) |
| Catan.Game.AiUpgradeOrPave | catan.py:378-391 | without a settlement in reach: the city on the drawn settlement if payable, else a road if payable, else nothing |
| Catan.Game.HandleBuildAction | catan.py:271-334 | builds exactly when the entry is paid for and the typed hex completes it; the purchase is charged even when the hex is refused; the right structure is placed on typed hex - 1 |
| Catan.Game.MenuSettlement | catan.py:276-296 | entry 1: pay, then settle the typed hex if it is on the board |
| Catan.Game.MenuRoad | catan.py:297-305 | entry 2: pay, then build a road |
| Catan.Game.MenuCity | catan.py:306-331 | entry 3: needs a settlement; pay, then upgrade the typed hex if it is one of the settlements |
| Catan.Game.CountSuppliers | catan.py:447-456 | the loop counts exactly the other players that could pay the request |
| Catan.Game.TryPartner | catan.py:463-609 | one visit does what Round says; only a completed trade changes the two balances, by the give and the request |
| Catan.Game.TradeResources | catan.py:445-612 | returns True exactly when the session trades; the balances end as Settled by the session's outcome, unchanged without a trade |
| Catan.Game.TradeFromInput | catan.py:413-442 | an unreadable or unaffordable proposal trades nothing and changes nothing; otherwise the session on the typed proposal |
| Catan.Game.AiTradeResources | catan.py:614-628 | no card of the offered kind: no trade and no change; otherwise the session on one card for one card |
| Catan.Game.VisitAll | catan.py:461-612 | the partner loop ends as the session does, with the settled balances |
| Catan.Game.Visit | catan.py:461-462 | one pass of the partner loop is the seat's visit against the starting balances |
| Catan.Game.SettleDeal | catan.py:469-473 | a swap between two seats and nothing else is the settled ledger |

## Left out

- Console output and prompts: `print`, `input`, `display_board`, `display_game_state`
  (PrettyTable) and clearing the screen. The typed values are parameters: the menu entry with
  blanks already stripped, answers already lower-cased, numbers already parsed or `None`.
- Randomness (`random.choice`, `random.shuffle`, `roll_dice`): the drawn values are
  parameters. For `ai_build` a precondition keeps them in `random.choice`'s range. For a
  counter-offer's pick, a `draw` is reduced into range. Their distributions are not modelled.
- `generate_board`: a game is built on any board whose hexes nobody owns yet.
- The `play` loop, `take_turn`, `human_action`, `ai_action` and `is_game_over`. They are
  interaction glue around the modelled operations.
- The robber: the source only describes it in prints. A seven simply pays nothing.
- Floating point: ratios and counter increases are exact integer computations. IEEE rounding
  is not modelled.
- Dictionary iteration order: every loop over a bundle's items visits the five kinds in a
  fixed order. Nothing in the source depends on that order.
- Players.Player.AddResources: amounts are `nat`. The source would also accept the negative
  numbers a human can type as a trade amount.
- Catan.Game.TradeFromInput: typed offer and request amounts are `nat`. Negative typed
  amounts are not modelled.
- Negotiation.Round: the extra amount a human partner's counter-offer demands is a `nat`.
  Negative typed amounts are not modelled.
- Catan.Game.TradeResources: the initiator is given by its seat index rather than by the
  player object. Seats hold distinct players, so `is not initiator` is the same test.
- Catan.Game.DistributeStartingResources: its contract gives the per-kind counts. The
  five-card total is the separate lemma `Catan.HandTotal`.
- Resources.Bundle.Minus: states the count of each kind. The card total of a payment is the
  separate lemma `Resources.MinusTotal`.
- Resources.Bundle.Plus: states the count of each kind. The card total of a sum is not stated.
- The roads list holds only the string "road", so the model keeps its length.
