/**
 * The board: hexes with a terrain, a trigger number and a list of owner
 * entries, and what a dice roll pays each player (the specification of
 * Game.distribute_resources).
 */
module Board {
  import opened Resources
  import opened Players

  datatype Terrain = Desert | Land(kind: Resource)

  /**
   * A hex: its terrain, the number that makes it produce, and one owner entry
   * per settlement built on it (a player who settles a hex twice is listed twice).
   */
  datatype Hex = Hex(terrain: Terrain, number: int, owners: seq<Player>)

  /** How many times `x` occurs in `s`. */
  function Occurrences<T(==)>(x: T, s: seq<T>): (n: nat)
    ensures n > 0 <==> x in s
    ensures n <= |s|
  {
    if s == [] then 0
    else
      assert s == s[..|s| - 1] + [s[|s| - 1]];
      Occurrences(x, s[..|s| - 1]) + if s[|s| - 1] == x then 1 else 0
  }

  /** What one owner entry of hex `h` collects: 1 if the hex is among the settlements, plus 2 if among the cities. */
  function Yield(h: nat, settlements: seq<nat>, cities: seq<nat>): nat
  {
    (if h in settlements then 1 else 0) + (if h in cities then 2 else 0)
  }

  /** What the first `n` owner entries pay `p`: `y` cards for each of them that names `p`. */
  function EntriesPay(owners: seq<Player>, n: nat, p: Player, y: nat): nat
    requires n <= |owners|
  {
    if n == 0 then 0
    else EntriesPay(owners, n - 1, p, y) + if owners[n - 1] == p then y else 0
  }

  /** Every entry pays on its own: a player listed k times on a hex collects k times the yield. */
  lemma {:induction false} EntriesPayCount(owners: seq<Player>, n: nat, p: Player, y: nat)
    requires n <= |owners|
    ensures EntriesPay(owners, n, p, y) == Occurrences(p, owners[..n]) * y
  {
    if n > 0 {
      EntriesPayCount(owners, n - 1, p, y);
      OccurrencesOfPrefix(p, owners, n);
      var c := Occurrences(p, owners[..n - 1]);
      if owners[n - 1] == p {
        OneMoreTimes(c, y);
      }
    }
  }

  /** One more entry pays one more yield. */
  lemma OneMoreTimes(c: nat, y: nat)
    ensures (c + 1) * y == c * y + y
  {
  }

  /** Counting in one more element of a prefix. */
  lemma OccurrencesOfPrefix<T>(x: T, s: seq<T>, n: nat)
    requires 0 < n <= |s|
    ensures Occurrences(x, s[..n]) == Occurrences(x, s[..n - 1]) + if s[n - 1] == x then 1 else 0
  {
    assert s[..n][..n - 1] == s[..n - 1];
  }

  /** A player named by none of the first `n` entries is paid nothing by them. */
  lemma {:induction false} EntriesPayAbsent(owners: seq<Player>, n: nat, p: Player, y: nat)
    requires n <= |owners|
    requires p !in owners
    ensures EntriesPay(owners, n, p, y) == 0
  {
    if n > 0 {
      EntriesPayAbsent(owners, n - 1, p, y);
    }
  }

  /**
   * How many cards of kind `r` the first `n` owner entries of hex number `h`
   * pay `p`, which has the given structures, on `roll`: the yield of each
   * entry naming `p`, when the hex is land of kind `r` bearing the number rolled.
   */
  function KindIncomeUpTo(hex: Hex, n: nat, h: nat, roll: int, p: Player, settlements: seq<nat>, cities: seq<nat>, r: Resource): nat
    requires n <= |hex.owners|
  {
    if hex.number == roll && hex.terrain == Land(r) then EntriesPay(hex.owners, n, p, Yield(h, settlements, cities)) else 0
  }

  /** What `p` collects from hex number `h` on `roll`: the pay of all its owner entries, kind by kind (the robber rule aside). */
  function HexIncome(hex: Hex, h: nat, roll: int, p: Player, settlements: seq<nat>, cities: seq<nat>): (income: Bundle)
    ensures forall r :: income.Get(r) == KindIncomeUpTo(hex, |hex.owners|, h, roll, p, settlements, cities, r)
  {
    var n := |hex.owners|;
    Bundle(KindIncomeUpTo(hex, n, h, roll, p, settlements, cities, Brick),
           KindIncomeUpTo(hex, n, h, roll, p, settlements, cities, Lumber),
           KindIncomeUpTo(hex, n, h, roll, p, settlements, cities, Ore),
           KindIncomeUpTo(hex, n, h, roll, p, settlements, cities, Grain),
           KindIncomeUpTo(hex, n, h, roll, p, settlements, cities, Wool))
  }

  /**
   * What a hex pays in closed form: when its number is rolled and it is land,
   * the yield of one entry once for every entry naming the player, all in the
   * hex's kind; otherwise (a desert, or another number) nothing.
   */
  lemma HexIncomeClosedForm(hex: Hex, h: nat, roll: int, p: Player, settlements: seq<nat>, cities: seq<nat>)
    ensures HexIncome(hex, h, roll, p, settlements, cities)
      == if hex.number == roll && hex.terrain.Land?
         then Single(hex.terrain.kind, Occurrences(p, hex.owners) * Yield(h, settlements, cities))
         else Empty
  {
    var y := Yield(h, settlements, cities);
    var income := HexIncome(hex, h, roll, p, settlements, cities);
    var expected := if hex.number == roll && hex.terrain.Land?
      then Single(hex.terrain.kind, Occurrences(p, hex.owners) * y)
      else Empty;
    EntriesPayCount(hex.owners, |hex.owners|, p, y);
    assert hex.owners[..|hex.owners|] == hex.owners;
    forall r ensures income.Get(r) == expected.Get(r) {
    }
    SameCounts(income, expected);
  }

  /** A hex whose number was not rolled, or that nobody has settled, pays nobody anything. */
  lemma IdleHexPaysNothing(hex: Hex, h: nat, roll: int, p: Player, settlements: seq<nat>, cities: seq<nat>)
    requires hex.number != roll || hex.owners == []
    ensures HexIncome(hex, h, roll, p, settlements, cities) == Empty
  {
    var income := HexIncome(hex, h, roll, p, settlements, cities);
    forall r ensures income.Get(r) == Empty.Get(r) {
      assert KindIncomeUpTo(hex, |hex.owners|, h, roll, p, settlements, cities, r) == 0;
    }
    SameCounts(income, Empty);
  }

  /** What `p` collects from the first `n` hexes of the board, visited in board order. */
  function IncomeUpTo(board: seq<Hex>, n: nat, roll: int, p: Player, settlements: seq<nat>, cities: seq<nat>): Bundle
    requires n <= |board|
  {
    if n == 0 then Empty
    else IncomeUpTo(board, n - 1, roll, p, settlements, cities).Plus(HexIncome(board[n - 1], n - 1, roll, p, settlements, cities))
  }

  /** Visiting hex `n - 1` adds what it pays, kind by kind. */
  lemma IncomeStep(board: seq<Hex>, n: nat, roll: int, p: Player, settlements: seq<nat>, cities: seq<nat>, r: Resource)
    requires 0 < n <= |board|
    ensures IncomeUpTo(board, n, roll, p, settlements, cities).Get(r)
      == IncomeUpTo(board, n - 1, roll, p, settlements, cities).Get(r) + HexIncome(board[n - 1], n - 1, roll, p, settlements, cities).Get(r)
  {
  }

  /** What `p` collects on `roll`: nothing at all on a seven, else the income of every hex. */
  function Production(board: seq<Hex>, roll: int, p: Player, settlements: seq<nat>, cities: seq<nat>): (income: Bundle)
    ensures roll == 7 ==> income == Empty
  {
    if roll == 7 then Empty else IncomeUpTo(board, |board|, roll, p, settlements, cities)
  }

  /**
   * A kind is only ever produced by land hexes of that kind whose number was
   * rolled: when there is none, nobody gains any of it.
   */
  lemma NoMatchingHexNoIncome(board: seq<Hex>, roll: int, p: Player, settlements: seq<nat>, cities: seq<nat>, r: Resource)
    requires forall i :: 0 <= i < |board| ==> board[i].number != roll || board[i].terrain != Land(r)
    ensures Production(board, roll, p, settlements, cities).Get(r) == 0
  {
    if roll != 7 {
      NoMatchingHexNoIncomeUpTo(board, |board|, roll, p, settlements, cities, r);
    }
  }

  lemma {:induction false} NoMatchingHexNoIncomeUpTo(board: seq<Hex>, n: nat, roll: int, p: Player, settlements: seq<nat>, cities: seq<nat>, r: Resource)
    requires n <= |board|
    requires forall i :: 0 <= i < n ==> board[i].number != roll || board[i].terrain != Land(r)
    ensures IncomeUpTo(board, n, roll, p, settlements, cities).Get(r) == 0
  {
    if n > 0 {
      NoMatchingHexNoIncomeUpTo(board, n - 1, roll, p, settlements, cities, r);
      IncomeStep(board, n, roll, p, settlements, cities, r);
      var hex := board[n - 1];
      assert KindIncomeUpTo(hex, |hex.owners|, n - 1, roll, p, settlements, cities, r) == 0;
    }
  }

  /** Only owners collect: a player with no owner entry on any hex gains nothing from any roll. */
  lemma StrangerCollectsNothing(board: seq<Hex>, roll: int, p: Player, settlements: seq<nat>, cities: seq<nat>)
    requires forall i :: 0 <= i < |board| ==> p !in board[i].owners
    ensures Production(board, roll, p, settlements, cities) == Empty
  {
    if roll != 7 {
      var income := IncomeUpTo(board, |board|, roll, p, settlements, cities);
      forall r ensures income.Get(r) == Empty.Get(r) {
        StrangerCollectsNothingUpTo(board, |board|, roll, p, settlements, cities, r);
      }
      SameCounts(income, Empty);
    }
  }

  lemma {:induction false} StrangerCollectsNothingUpTo(board: seq<Hex>, n: nat, roll: int, p: Player, settlements: seq<nat>, cities: seq<nat>, r: Resource)
    requires n <= |board|
    requires forall i :: 0 <= i < n ==> p !in board[i].owners
    ensures IncomeUpTo(board, n, roll, p, settlements, cities).Get(r) == 0
  {
    if n > 0 {
      StrangerCollectsNothingUpTo(board, n - 1, roll, p, settlements, cities, r);
      IncomeStep(board, n, roll, p, settlements, cities, r);
      StrangerHexPaysNothing(board[n - 1], n - 1, roll, p, settlements, cities, r);
    }
  }

  /** A hex that does not list `p` pays it nothing. */
  lemma StrangerHexPaysNothing(hex: Hex, h: nat, roll: int, p: Player, settlements: seq<nat>, cities: seq<nat>, r: Resource)
    requires p !in hex.owners
    ensures HexIncome(hex, h, roll, p, settlements, cities).Get(r) == 0
  {
    EntriesPayAbsent(hex.owners, |hex.owners|, p, Yield(h, settlements, cities));
  }

  /**
   * The hexes whose owner list does not name `p`, in board order: where a
   * computer player looks for a site for its next settlement.
   */
  function OpenHexes(board: seq<Hex>, p: Player): (open: seq<nat>)
    ensures forall i :: i in open ==> i < |board|
    ensures forall i: nat :: i < |board| ==> (i in open <==> p !in board[i].owners)
    ensures forall k :: 0 <= k < |open| - 1 ==> open[k] < open[k + 1]
  {
    if board == [] then []
    else
      var init := board[..|board| - 1];
      var rest := OpenHexes(init, p);
      assert forall i: nat :: i < |init| ==> init[i] == board[i];
      assert forall k :: 0 <= k < |rest| ==> rest[k] in rest;
      if p !in board[|board| - 1].owners then rest + [|board| - 1] else rest
  }
}
