/** The 72-cell loop track: its cell kinds, the weighted bag they are drawn
    from, the shuffle, the generator that lays the track out at the start of
    a game, and movement around the loop. */
module Board {

  /** The kind of a cell, which decides what landing on it does. */
  datatype Cell = Nothing | Profit | Loss | Debt | Investment | Bonus

  const BoardSize: nat := 72
  /** How many positions the generator forces to investment, then to bonus. */
  const InvestmentDraws: nat := 5
  const BonusDraws: nat := 2

  /** The kinds in the order of the weight table. */
  const Kinds: seq<Cell> := [Nothing, Profit, Loss, Debt, Investment, Bonus]

  /** The weight of each kind: how many copies of it go into the bag. */
  function Weight(c: Cell): nat {
    match c
    case Nothing => 20
    case Profit => 15
    case Loss => 15
    case Debt => 10
    case Investment => 10
    case Bonus => 2
  }

  /** `n` copies of `c`. */
  function Repeat(c: Cell, n: nat): (r: seq<Cell>)
    ensures |r| == n
    ensures forall i :: 0 <= i < n ==> r[i] == c
    ensures multiset(r) == multiset{}[c := n]
  {
    if n == 0 then [] else Repeat(c, n - 1) + [c]
  }

  /** The bag obtained by extending an empty list, kind after kind, with
      `Weight` copies of each kind. */
  function BagOf(kinds: seq<Cell>): seq<Cell> {
    if kinds == [] then []
    else
      var last := kinds[|kinds| - 1];
      BagOf(kinds[..|kinds| - 1]) + Repeat(last, Weight(last))
  }

  function WeightedBag(): seq<Cell> {
    BagOf(Kinds)
  }

  /** The total weight of some kinds, and the part of it that is kind `c`. */
  function TotalWeight(kinds: seq<Cell>): nat {
    if kinds == [] then 0 else TotalWeight(kinds[..|kinds| - 1]) + Weight(kinds[|kinds| - 1])
  }

  function WeightOf(kinds: seq<Cell>, c: Cell): nat {
    if kinds == [] then 0
    else WeightOf(kinds[..|kinds| - 1], c) + if kinds[|kinds| - 1] == c then Weight(c) else 0
  }

  /** The bag built from some kinds holds exactly their weights. */
  lemma {:induction false} BagCounts(kinds: seq<Cell>)
    ensures |BagOf(kinds)| == TotalWeight(kinds)
    ensures forall c :: multiset(BagOf(kinds))[c] == WeightOf(kinds, c)
  {
    if kinds != [] {
      BagCounts(kinds[..|kinds| - 1]);
    }
  }

  /** The weight table adds up to the board size, and each kind's share of
      it is its own weight (each kind appears in the table once). */
  lemma TableWeights()
    ensures TotalWeight(Kinds) == BoardSize
    ensures forall c :: WeightOf(Kinds, c) == Weight(c)
  {
    assert Kinds[..0] == [];
    assert Kinds[..1][..0] == Kinds[..0];
    assert Kinds[..2][..1] == Kinds[..1];
    assert Kinds[..3][..2] == Kinds[..2];
    assert Kinds[..4][..3] == Kinds[..3];
    assert Kinds[..5][..4] == Kinds[..4];
    assert Kinds[..6][..5] == Kinds[..5];
    assert Kinds[..6] == Kinds;
    forall c
      ensures WeightOf(Kinds, c) == Weight(c)
    {
      assert WeightOf(Kinds[..1], c) == if c == Nothing then 20 else 0;
      assert WeightOf(Kinds[..2], c) == WeightOf(Kinds[..1], c) + if c == Profit then 15 else 0;
      assert WeightOf(Kinds[..3], c) == WeightOf(Kinds[..2], c) + if c == Loss then 15 else 0;
      assert WeightOf(Kinds[..4], c) == WeightOf(Kinds[..3], c) + if c == Debt then 10 else 0;
      assert WeightOf(Kinds[..5], c) == WeightOf(Kinds[..4], c) + if c == Investment then 10 else 0;
      assert WeightOf(Kinds[..6], c) == WeightOf(Kinds[..5], c) + if c == Bonus then 2 else 0;
    }
    assert TotalWeight(Kinds[..1]) == 20;
    assert TotalWeight(Kinds[..2]) == 35;
    assert TotalWeight(Kinds[..3]) == 50;
    assert TotalWeight(Kinds[..4]) == 60;
    assert TotalWeight(Kinds[..5]) == 70;
  }

  /** So the bag already fills the board: the generator's "nothing" padding
      never happens. */
  lemma BagFillsBoard()
    ensures |WeightedBag()| == BoardSize
  {
    BagCounts(Kinds);
    TableWeights();
  }

  /** And the bag holds each kind as many times as its weight: ten investment
      and two bonus cells before any position is forced. */
  lemma BagComposition()
    ensures forall c :: multiset(WeightedBag())[c] == Weight(c)
  {
    BagCounts(Kinds);
    TableWeights();
  }

  predicate Distinct(s: seq<nat>) {
    forall i, j :: 0 <= i < j < |s| ==> s[i] != s[j]
  }

  /** What the library shuffle may leave in the list: some order of the
      weighted bag, that is, a list holding each kind exactly as many times
      as its weight. */
  predicate IsShuffle(shuffled: seq<Cell>) {
    forall c :: multiset(shuffled)[c] == Weight(c)
  }

  /** The shuffled lists are exactly the rearrangements of the weighted bag. */
  lemma ShuffleOfBag(shuffled: seq<Cell>)
    ensures IsShuffle(shuffled) <==> multiset(shuffled) == multiset(WeightedBag())
  {
    BagComposition();
    if IsShuffle(shuffled) {
      assert forall c :: multiset(shuffled)[c] == multiset(WeightedBag())[c];
    }
  }

  /** The random choices of the generator: the order the shuffle leaves the
      bag in, five distinct investment positions on the board, and two
      distinct bonus positions among the cells that are not investment once
      the investment positions are forced. */
  predicate LayoutDraws(shuffled: seq<Cell>, investmentPositions: seq<nat>, bonusPositions: seq<nat>) {
    && IsShuffle(shuffled)
    && |investmentPositions| == InvestmentDraws && Distinct(investmentPositions)
    && (forall m :: 0 <= m < |investmentPositions| ==> investmentPositions[m] < BoardSize)
    && |bonusPositions| == BonusDraws && Distinct(bonusPositions)
    && (forall m :: 0 <= m < |bonusPositions| ==> bonusPositions[m] < BoardSize)
    && (forall q :: q in bonusPositions ==>
          && q !in investmentPositions
          && (q < |shuffled| ==> shuffled[q] != Investment))
  }

  /** A board laid out from these choices: 72 cells, every forced investment
      position holds an investment cell, every forced bonus position a bonus
      cell, and every other cell holds the shuffled bag's entry at that index
      (or "nothing" past the end of the bag). */
  predicate LaidOut(board: seq<Cell>, shuffled: seq<Cell>, investmentPositions: seq<nat>, bonusPositions: seq<nat>)
    requires LayoutDraws(shuffled, investmentPositions, bonusPositions)
  {
    && |board| == BoardSize
    && (forall q :: q in investmentPositions ==> board[q] == Investment)
    && (forall q :: q in bonusPositions ==> board[q] == Bonus)
    && (forall q :: 0 <= q < BoardSize && q !in investmentPositions && q !in bonusPositions ==>
          board[q] == if q < |shuffled| then shuffled[q] else Nothing)
  }

  /** A shuffled bag is exactly as long as the board, so no cell is padded. */
  lemma ShuffleFillsBoard(shuffled: seq<Cell>)
    requires IsShuffle(shuffled)
    ensures |shuffled| == BoardSize
  {
    ShuffleOfBag(shuffled);
    BagFillsBoard();
    assert |multiset(shuffled)| == |multiset(WeightedBag())|;
  }

  /** Builds the weighted bag, lets the shuffle rearrange it, copies it onto
      72 cells, then forces the investment positions and after them the bonus
      positions. */
  method GenerateBoard(shuffled: seq<Cell>, investmentPositions: seq<nat>, bonusPositions: seq<nat>)
    returns (board: seq<Cell>)
    requires LayoutDraws(shuffled, investmentPositions, bonusPositions)
    ensures LaidOut(board, shuffled, investmentPositions, bonusPositions)
  {
    var massList := FillBag();
    // the shuffle's outcome is the parameter, a rearrangement of this bag
    ShuffleOfBag(shuffled);
    BagFillsBoard();
    assert multiset(shuffled) == multiset(massList) && |shuffled| == |massList|;
    massList := shuffled;
    board := CopyOnto(massList);
    board := Force(board, investmentPositions, Investment);
    ghost var invested := board;
    forall q | q in bonusPositions
      ensures invested[q] != Investment
    {
      var m :| 0 <= m < |bonusPositions| && bonusPositions[m] == q;
    }
    board := Force(board, bonusPositions, Bonus);
  }

  /** The weighted bag, one `extend` per kind in table order. */
  method FillBag() returns (massList: seq<Cell>)
    ensures massList == WeightedBag()
  {
    massList := [];
    for k := 0 to |Kinds|
      invariant massList == BagOf(Kinds[..k])
    {
      assert Kinds[..k + 1][..k] == Kinds[..k];
      massList := massList + Repeat(Kinds[k], Weight(Kinds[k]));
    }
    assert Kinds[..|Kinds|] == Kinds;
  }

  /** The 72 cells: the list's entry where it has one, "nothing" past its end. */
  method CopyOnto(massList: seq<Cell>) returns (board: seq<Cell>)
    ensures |board| == BoardSize
    ensures forall q :: 0 <= q < BoardSize ==> board[q] == if q < |massList| then massList[q] else Nothing
  {
    board := [];
    for i := 0 to BoardSize
      invariant |board| == i
      invariant forall q :: 0 <= q < i ==> board[q] == if q < |massList| then massList[q] else Nothing
    {
      if i < |massList| {
        board := board + [massList[i]];
      } else {
        board := board + [Nothing];
      }
    }
  }

  /** Overwrites every listed position with `c` and leaves the rest alone. */
  method Force(cells: seq<Cell>, positions: seq<nat>, c: Cell) returns (board: seq<Cell>)
    requires forall m :: 0 <= m < |positions| ==> positions[m] < |cells|
    ensures |board| == |cells|
    ensures forall q :: q in positions ==> board[q] == c
    ensures forall q :: 0 <= q < |cells| && q !in positions ==> board[q] == cells[q]
  {
    board := cells;
    for k := 0 to |positions|
      invariant |board| == |cells|
      invariant forall m :: 0 <= m < k ==> board[positions[m]] == c
      invariant forall q :: 0 <= q < |cells| && (forall m :: 0 <= m < k ==> positions[m] != q) ==>
                  board[q] == cells[q]
    {
      board := board[positions[k] := c];
    }
  }

  /** Moving `dice` cells forward around the loop. */
  function Move(position: nat, dice: int): (r: nat)
    requires position < BoardSize && 1 <= dice <= 6
    ensures r < BoardSize
    ensures r != position
    ensures r == position + dice || r == position + dice - BoardSize
  {
    (position + dice) % BoardSize
  }
}
