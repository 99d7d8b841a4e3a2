/** What landing on a cell does to the player's books: the profit and loss
    event tables, the ranges of the loan and of the investment offer, and
    the resolver that applies a cell's effect. */
module Events {
  import opened Optional
  import opened Board
  import opened Ledger

  /** An inclusive range of amounts. */
  datatype Range = Range(low: int, high: int)
  {
    predicate Has(x: int) {
      low <= x <= high
    }
  }

  /** The five profit events, each with the range its amount is drawn from. */
  const ProfitEvents: seq<Range> :=
    [Range(500, 2000), Range(1000, 3000), Range(800, 2500), Range(600, 1800), Range(1500, 4000)]

  /** The five loss events. */
  const LossEvents: seq<Range> :=
    [Range(300, 1500), Range(200, 1000), Range(400, 1800), Range(500, 2000), Range(300, 1200)]

  const LoanRange: Range := Range(1000, 5000)
  const OfferRange: Range := Range(1000, 3000)

  /** The random choices a cell's effect may consume: which event of the
      table, the amount drawn, and which asset bucket an offer is for. */
  datatype Draw = Draw(event: nat, amount: int, asset: AssetKind)

  /** The choices the random calls can make on this cell. */
  predicate DrawFits(cell: Cell, d: Draw) {
    match cell
    case Profit => d.event < |ProfitEvents| && ProfitEvents[d.event].Has(d.amount)
    case Loss => d.event < |LossEvents| && LossEvents[d.event].Has(d.amount)
    case Debt => LoanRange.Has(d.amount)
    case Investment => OfferRange.Has(d.amount)
    case _ => true
  }

  /** The investment offer as the session keeps it: whether it is open, its
      price, its bucket and the cell it was made on. */
  datatype Proposal = Proposal(pending: bool, amount: int, kind: AssetKind, position: nat)

  /** The offer once a cell at `position` is resolved: an investment cell
      opens one with the drawn price and bucket, any other cell leaves the
      offer as it was. */
  function OfferAfter(before: Proposal, cell: Cell, d: Draw, position: nat): Proposal {
    if cell == Investment then Proposal(true, d.amount, d.asset, position) else before
  }

  /** The books after landing on `cell`: a profit cell posts the drawn
      amount as income, a loss cell posts it as a cost, a debt cell posts it
      as a loan, and each of those appends one log entry of this turn; an
      empty, investment or bonus cell leaves the books as they are. */
  function Effect(b: Books, cell: Cell, turn: int, d: Draw): Books
    requires DrawFits(cell, d)
  {
    match cell
    case Profit => Earn(b, turn, Income, d.amount, ProfitEvent(d.event))
    case Loss => Spend(b, turn, d.amount, LossEvent(d.event))
    case Debt => Borrow(b, turn, d.amount)
    case _ => b
  }

  /** Profit, loss and debt cells append one entry of this turn and keep the
      earlier ones; the other cells leave the books as they are. */
  lemma EffectLogs(b: Books, cell: Cell, turn: int, d: Draw)
    requires DrawFits(cell, d)
    ensures var r := Effect(b, cell, turn, d);
      && (cell == Profit || cell == Loss || cell == Debt ==>
            && |r.history| == |b.history| + 1 && r.history[..|b.history|] == b.history
            && r.history[|b.history|].turn == turn)
      && (cell == Nothing || cell == Investment || cell == Bonus ==> r == b)
  {
    match cell
    case Profit => EarnPosts(b, turn, Income, d.amount, ProfitEvent(d.event));
    case Loss => SpendPosts(b, turn, d.amount, LossEvent(d.event));
    case Debt => BorrowPosts(b, turn, d.amount);
    case _ =>
  }

  /** No cell's effect breaks the accounting identities. */
  lemma EffectConsistent(b: Books, cell: Cell, turn: int, d: Draw)
    requires DrawFits(cell, d) && Consistent(b)
    ensures Consistent(Effect(b, cell, turn, d))
  {
    match cell
    case Profit => EarnPosts(b, turn, Income, d.amount, ProfitEvent(d.event));
    case Loss => SpendPosts(b, turn, d.amount, LossEvent(d.event));
    case Debt => BorrowPosts(b, turn, d.amount);
    case _ =>
  }

  /** A profit cell adds an amount from the chosen event's range to cash,
      revenue, operating cash flow and equity, and touches neither debt nor
      expenses. */
  lemma ProfitEffect(b: Books, turn: int, d: Draw)
    requires DrawFits(Profit, d)
    ensures var r := Effect(b, Profit, turn, d);
      && ProfitEvents[d.event].Has(r.cash - b.cash)
      && r.revenue - b.revenue == r.cash - b.cash
      && r.cfOperations - b.cfOperations == r.cash - b.cash
      && r.Equity() - b.Equity() == r.cash - b.cash
      && r.debt == b.debt && r.expenses == b.expenses
  {
    EarnPosts(b, turn, Income, d.amount, ProfitEvent(d.event));
  }

  /** A loss cell takes an amount from the chosen event's range out of cash,
      operating cash flow and equity and adds it to expenses. Nothing stops
      the cash from going below zero. */
  lemma LossEffect(b: Books, turn: int, d: Draw)
    requires DrawFits(Loss, d)
    ensures var r := Effect(b, Loss, turn, d);
      && LossEvents[d.event].Has(b.cash - r.cash)
      && r.expenses - b.expenses == b.cash - r.cash
      && r.cfOperations - b.cfOperations == r.cash - b.cash
      && r.Equity() - b.Equity() == r.cash - b.cash
      && r.debt == b.debt && r.revenue == b.revenue
  {
    SpendPosts(b, turn, d.amount, LossEvent(d.event));
  }

  /** A debt cell adds a loan of 1000 to 5000 to cash, debt and financing
      cash flow, leaving equity and profit where they were. */
  lemma DebtEffect(b: Books, turn: int, d: Draw)
    requires DrawFits(Debt, d)
    ensures var r := Effect(b, Debt, turn, d);
      && LoanRange.Has(r.cash - b.cash)
      && r.debt - b.debt == r.cash - b.cash
      && r.cfFinancing - b.cfFinancing == r.cash - b.cash
      && r.Equity() == b.Equity() && r.Profit() == b.Profit()
  {
    BorrowPosts(b, turn, d.amount);
  }

  /** An effect's entry is stamped with the current turn, so it keeps the
      log in turn order. */
  lemma EffectChronological(b: Books, cell: Cell, turn: int, d: Draw)
    requires DrawFits(cell, d) && Chronological(b.history, turn)
    ensures Chronological(Effect(b, cell, turn, d).history, turn)
  {
    var r := Effect(b, cell, turn, d);
    match cell
    case Profit =>
      EarnPosts(b, turn, Income, d.amount, ProfitEvent(d.event));
      AppendChronological(b, r, turn, Income, d.amount);
    case Loss =>
      SpendPosts(b, turn, d.amount, LossEvent(d.event));
      AppendChronological(b, r, turn, Cost, -d.amount);
    case Debt =>
      BorrowPosts(b, turn, d.amount);
      AppendChronological(b, r, turn, Loan, d.amount);
    case _ =>
  }

  /** Every amount an effect can move the cash by: at most 4000 up on a
      profit cell, at most 2000 down on a loss cell, at most 5000 up on a
      debt cell. */
  lemma EffectBounds(b: Books, cell: Cell, turn: int, d: Draw)
    requires DrawFits(cell, d)
    ensures -2000 <= Effect(b, cell, turn, d).cash - b.cash <= 5000
    ensures cell == Profit ==> 500 <= Effect(b, cell, turn, d).cash - b.cash <= 4000
    ensures cell == Loss ==> -2000 <= Effect(b, cell, turn, d).cash - b.cash <= -200
  {
    match cell
    case Profit =>
      assert d.event == 0 || d.event == 1 || d.event == 2 || d.event == 3 || d.event == 4;
    case Loss =>
      assert d.event == 0 || d.event == 1 || d.event == 2 || d.event == 3 || d.event == 4;
    case _ =>
  }

  /** Applies the effect of `cell` to the player's books in place and
      updates the session's offer `before`: an investment cell opens one for
      the drawn price and bucket at the player's position, and no other cell
      touches it. */
  method ApplyMassEffect(p: Player, cell: Cell, turn: int, d: Draw, before: Proposal) returns (offer: Proposal)
    requires DrawFits(cell, d)
    modifies p
    ensures p.Statement() == Effect(old(p.Statement()), cell, turn, d)
    ensures p.position == old(p.position)
    ensures offer == OfferAfter(before, cell, d, p.position)
    ensures cell == Investment ==> offer == Proposal(true, d.amount, d.asset, p.position)
    ensures cell != Investment ==> offer == before
  {
    offer := before;
    match cell {
      case Nothing =>
      case Profit =>
        p.ReceiveIncome(turn, Income, d.amount, ProfitEvent(d.event));
      case Loss =>
        p.PayCost(turn, d.amount, LossEvent(d.event));
      case Debt =>
        p.TakeLoan(turn, d.amount);
      case Investment =>
        offer := Proposal(true, d.amount, d.asset, p.position);
      case Bonus =>
    }
  }
}
