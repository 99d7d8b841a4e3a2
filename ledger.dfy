/** A player's books: cash, two asset buckets, one debt bucket, revenue,
    expenses, the three cash-flow accumulators and the transaction log; the
    totals derived from them; and the postings every game event makes. */
module Ledger {

  /** The two asset buckets: buildings and land, stock and goods. */
  datatype AssetKind = Property | Inventory

  /** The type label a log entry carries. */
  datatype TxKind = Income | Cost | Loan | Acquisition | SaleGain | SaleLoss | BonusIncome

  /** What a log entry was for, in place of its message text. */
  datatype Reason =
    | ProfitEvent(profitIndex: nat)
    | LossEvent(lossIndex: nat)
    | WorkingCapital
    | Acquired(acquiredKind: AssetKind)
    | Sold(soldKind: AssetKind, gain: int)
    | FlipSuccess

  /** One log entry: the turn it was made in, its type, the signed amount,
      its reason and the cash just after the posting. */
  datatype Transaction = Transaction(turn: int, kind: TxKind, amount: int, reason: Reason, cashAfter: int)

  const OpeningCash: int := 5000

  /** A snapshot of the books. */
  datatype Books = Books(
    cash: int,
    assets: map<AssetKind, int>,
    debt: int,
    revenue: int,
    expenses: int,
    cfOperations: int,
    cfInvestment: int,
    cfFinancing: int,
    history: seq<Transaction>)
  {
    /** What bucket `k` holds. */
    function Held(k: AssetKind): int {
      if k in assets then assets[k] else 0
    }

    /** Cash plus every asset bucket; never less than the cash while no
        bucket is negative. */
    function TotalAssets(): (r: int)
      ensures Held(Property) >= 0 && Held(Inventory) >= 0 ==> r >= cash
    {
      cash + Held(Property) + Held(Inventory)
    }

    /** Total assets less the debt. */
    function Equity(): int {
      TotalAssets() - debt
    }

    /** Revenue less expenses. */
    function Profit(): int {
      revenue - expenses
    }
  }

  /** The cash before entry i: the opening cash for the first entry, the
      previous entry's cash-after for the others. */
  function CashBefore(h: seq<Transaction>, i: nat): int
    requires i <= |h|
  {
    if i == 0 then OpeningCash else h[i - 1].cashAfter
  }

  /** The cash after the whole log. */
  function LastCash(h: seq<Transaction>): int {
    CashBefore(h, |h|)
  }

  /** Entry i moves the cash by its own amount. */
  predicate Moves(h: seq<Transaction>, i: nat)
    requires i < |h|
  {
    h[i].cashAfter == CashBefore(h, i) + h[i].amount
  }

  /** Every entry moves the cash by its own amount. */
  predicate Chained(h: seq<Transaction>) {
    forall i :: 0 <= i < |h| ==> Moves(h, i)
  }

  /** The sum of the amounts in the log. */
  function Total(h: seq<Transaction>): int {
    if h == [] then 0 else Total(h[..|h| - 1]) + h[|h| - 1].amount
  }

  /** Entries appear in turn order and none was made after `turn`. */
  predicate Chronological(h: seq<Transaction>, turn: int) {
    && (forall i, j :: 0 <= i < j < |h| ==> h[i].turn <= h[j].turn)
    && (forall i :: 0 <= i < |h| ==> h[i].turn <= turn)
  }

  /** The accounting identities every posting keeps: both asset buckets
      exist and are never negative, nor are debt, revenue and expenses;
      operating cash flow is the profit, financing cash flow is the debt,
      cash is the opening cash plus the three cash flows, and every log
      entry moves the cash by its amount, ending at the cash. Cash itself has no floor. */
  predicate Consistent(b: Books) {
    && Property in b.assets && Inventory in b.assets
    && b.Held(Property) >= 0 && b.Held(Inventory) >= 0
    && b.debt >= 0 && b.revenue >= 0 && b.expenses >= 0
    && b.cfOperations == b.Profit()
    && b.cfFinancing == b.debt
    && b.cash == OpeningCash + b.cfOperations + b.cfInvestment + b.cfFinancing
    && Chained(b.history) && LastCash(b.history) == b.cash
  }

  /** `after` is `before` with exactly one entry appended, of this turn, type
      and amount, whose cash-after is the cash once the posting is made. */
  predicate AppendsOne(before: Books, after: Books, turn: int, kind: TxKind, amount: int) {
    && |after.history| == |before.history| + 1
    && after.history[..|before.history|] == before.history
    && after.history[|before.history|].turn == turn
    && after.history[|before.history|].kind == kind
    && after.history[|before.history|].amount == amount
    && after.history[|before.history|].cashAfter == after.cash
  }

  /** The books a new player opens with. */
  function Opening(): Books {
    Books(OpeningCash, map[Property := 0][Inventory := 0], 0, 0, 0, 0, 0, 0, [])
  }

  /** A new player's books satisfy the accounting identities. */
  lemma OpeningConsistent(b: Books)
    requires b == Opening()
    ensures Consistent(b)
  {
    OpeningBuckets();
    assert b.history == [];
    assert Chained(b.history) && LastCash(b.history) == b.cash;
  }

  /** A new player starts with equity equal to the opening cash, no profit
      and an empty log. */
  lemma OpeningEquity(b: Books)
    requires b == Opening()
    ensures b.Equity() == OpeningCash && b.Profit() == 0 && b.history == []
  {
    OpeningBuckets();
  }

  /** A new player has both buckets, each empty. */
  lemma OpeningBuckets()
    ensures Property in Opening().assets && Inventory in Opening().assets
    ensures Opening().Held(Property) == 0 && Opening().Held(Inventory) == 0
  {
    var m := Opening().assets;
    assert m == map[Property := 0][Inventory := 0];
    assert m[Property] == 0 && m[Inventory] == 0;
  }

  /** What the three totals are, and what they come to in consistent books:
      total assets are cash plus both buckets and at least the cash, equity
      is total assets less the debt and equals the opening cash plus the
      profit plus the buckets' excess over the net cash paid for them, and
      profit is revenue less expenses and equals the operating cash flow. */
  lemma Totals(b: Books)
    ensures b.TotalAssets() == b.cash + b.Held(Property) + b.Held(Inventory)
    ensures b.Equity() == b.TotalAssets() - b.debt
    ensures b.Profit() == b.revenue - b.expenses
    ensures Consistent(b) ==>
      && b.TotalAssets() >= b.cash && b.Profit() == b.cfOperations
      && b.Equity() == OpeningCash + b.Profit() + b.Held(Property) + b.Held(Inventory) + b.cfInvestment
  {
  }

  /** Appending one entry that carries the current cash. */
  function Record(b: Books, turn: int, kind: TxKind, amount: int, reason: Reason): Books {
    b.(history := b.history + [Transaction(turn, kind, amount, reason, b.cash)])
  }

  /** Appending an entry keeps the log chained exactly when the entry moves
      the cash on from where the log left it by its own amount. */
  lemma AppendChained(h: seq<Transaction>, t: Transaction)
    ensures LastCash(h + [t]) == t.cashAfter
    ensures Chained(h + [t]) <==> Chained(h) && t.cashAfter == LastCash(h) + t.amount
  {
    var g := h + [t];
    assert forall i :: 0 <= i < |h| ==> g[i] == h[i];
    assert forall i :: 0 <= i <= |h| ==> CashBefore(g, i) == CashBefore(h, i);
    assert forall i :: 0 <= i < |h| ==> (Moves(g, i) <==> Moves(h, i));
    assert Moves(g, |h|) <==> t.cashAfter == LastCash(h) + t.amount;
  }

  /** A chained log replays: its last cash-after is the opening cash plus
      the sum of its amounts. */
  lemma {:induction false} ChainedReplays(h: seq<Transaction>)
    requires Chained(h)
    ensures LastCash(h) == OpeningCash + Total(h)
  {
    if h != [] {
      var front := h[..|h| - 1];
      assert forall i :: 0 <= i < |front| ==> front[i] == h[i];
      assert forall i :: 0 <= i <= |front| ==> CashBefore(front, i) == CashBefore(h, i);
      assert forall i :: 0 <= i < |front| ==> Moves(front, i) == Moves(h, i);
      ChainedReplays(front);
      assert Moves(h, |front|);
    }
  }

  /** Posting a receipt that the cash, revenue and operating cash flow each
      gain: a profit event or a bonus. */
  function Earn(b: Books, turn: int, kind: TxKind, amount: int, reason: Reason): Books {
    Record(b.(cash := b.cash + amount, revenue := b.revenue + amount,
              cfOperations := b.cfOperations + amount), turn, kind, amount, reason)
  }

  /** A receipt raises equity and profit by its amount, keeps the accounting
      identities when it is not negative, and logs one entry of it. */
  lemma EarnPosts(b: Books, turn: int, kind: TxKind, amount: int, reason: Reason)
    ensures var r := Earn(b, turn, kind, amount, reason);
      && (Consistent(b) && amount >= 0 ==> Consistent(r))
      && r.Equity() == b.Equity() + amount && r.Profit() == b.Profit() + amount
      && r.cash == b.cash + amount && r.revenue == b.revenue + amount
      && r.cfOperations == b.cfOperations + amount
      && r.debt == b.debt && r.assets == b.assets && r.expenses == b.expenses
      && r.cfInvestment == b.cfInvestment && r.cfFinancing == b.cfFinancing
      && AppendsOne(b, r, turn, kind, amount)
  {
    AppendChained(b.history, Transaction(turn, kind, amount, reason, b.cash + amount));
  }

  /** Posting a loss event: out of cash and operating cash flow, into
      expenses, logged as a negative amount. */
  function Spend(b: Books, turn: int, amount: int, reason: Reason): Books {
    Record(b.(cash := b.cash - amount, expenses := b.expenses + amount,
              cfOperations := b.cfOperations - amount), turn, Cost, -amount, reason)
  }

  /** A loss lowers equity and profit by its amount, keeps the accounting
      identities when it is not negative, and logs one entry of it. */
  lemma SpendPosts(b: Books, turn: int, amount: int, reason: Reason)
    ensures var r := Spend(b, turn, amount, reason);
      && (Consistent(b) && amount >= 0 ==> Consistent(r))
      && r.Equity() == b.Equity() - amount && r.Profit() == b.Profit() - amount
      && r.cash == b.cash - amount && r.expenses == b.expenses + amount
      && r.cfOperations == b.cfOperations - amount
      && r.debt == b.debt && r.assets == b.assets && r.revenue == b.revenue
      && r.cfInvestment == b.cfInvestment && r.cfFinancing == b.cfFinancing
      && AppendsOne(b, r, turn, Cost, -amount)
  {
    AppendChained(b.history, Transaction(turn, Cost, -amount, reason, b.cash - amount));
  }

  /** Posting a loan: into cash, debt and financing cash flow. */
  function Borrow(b: Books, turn: int, amount: int): Books {
    Record(b.(cash := b.cash + amount, debt := b.debt + amount,
              cfFinancing := b.cfFinancing + amount), turn, Loan, amount, WorkingCapital)
  }

  /** A loan moves neither equity nor profit, keeps the accounting identities
      when it is not negative, and logs one entry of it. */
  lemma BorrowPosts(b: Books, turn: int, amount: int)
    ensures var r := Borrow(b, turn, amount);
      && (Consistent(b) && amount >= 0 ==> Consistent(r))
      && r.Equity() == b.Equity() && r.Profit() == b.Profit()
      && r.cash == b.cash + amount && r.debt == b.debt + amount
      && r.cfFinancing == b.cfFinancing + amount && r.assets == b.assets
      && r.revenue == b.revenue && r.expenses == b.expenses
      && r.cfOperations == b.cfOperations && r.cfInvestment == b.cfInvestment
      && AppendsOne(b, r, turn, Loan, amount)
  {
    AppendChained(b.history, Transaction(turn, Loan, amount, WorkingCapital, b.cash + amount));
  }

  /** Posting a purchase: out of cash and investing cash flow, into the
      bought bucket, logged as a negative amount. */
  function Acquire(b: Books, turn: int, k: AssetKind, amount: int): Books {
    Record(b.(cash := b.cash - amount, assets := b.assets[k := b.Held(k) + amount],
              cfInvestment := b.cfInvestment - amount), turn, Acquisition, -amount, Acquired(k))
  }

  /** A purchase moves neither equity nor profit, keeps the accounting
      identities when its price is not negative, touches no other bucket, and
      logs one entry of it. */
  lemma AcquirePosts(b: Books, turn: int, k: AssetKind, amount: int)
    ensures var r := Acquire(b, turn, k, amount);
      && (Consistent(b) && amount >= 0 ==> Consistent(r))
      && r.Equity() == b.Equity() && r.Profit() == b.Profit()
      && r.cash == b.cash - amount && r.Held(k) == b.Held(k) + amount
      && r.cfInvestment == b.cfInvestment - amount
      && (forall other :: other != k ==> r.Held(other) == b.Held(other))
      && r.debt == b.debt && r.revenue == b.revenue && r.expenses == b.expenses
      && r.cfOperations == b.cfOperations && r.cfFinancing == b.cfFinancing
      && AppendsOne(b, r, turn, Acquisition, -amount)
  {
    assert k == Property || k == Inventory;
    AppendChained(b.history, Transaction(turn, Acquisition, -amount, Acquired(k), b.cash - amount));
  }

  /** The bucket after taking `value` out of it, never below zero. */
  function Drawn(held: int, value: int): (r: int)
    ensures r >= 0
    ensures held >= value ==> r == held - value
    ensures held < value ==> r == 0
  {
    if held - value < 0 then 0 else held - value
  }

  /** The log type of a sale: a gain when the proceeds are at least the
      value invested, a loss otherwise. */
  function SaleKind(value: int, proceeds: int): TxKind {
    if proceeds - value >= 0 then SaleGain else SaleLoss
  }

  /** Posting a sale: into cash and investing cash flow, the value invested
      out of the sold bucket (clamped at zero), logged with the proceeds. */
  function Dispose(b: Books, turn: int, k: AssetKind, value: int, proceeds: int): Books {
    Record(b.(cash := b.cash + proceeds, assets := b.assets[k := Drawn(b.Held(k), value)],
              cfInvestment := b.cfInvestment + proceeds),
           turn, SaleKind(value, proceeds), proceeds, Sold(k, proceeds - value))
  }

  /** A sale keeps profit, keeps the accounting identities when the proceeds
      are not negative, touches no other bucket, logs one entry of the
      proceeds, and, when the bucket holds the value invested, moves equity
      by exactly the gain or loss. */
  lemma DisposePosts(b: Books, turn: int, k: AssetKind, value: int, proceeds: int)
    ensures var r := Dispose(b, turn, k, value, proceeds);
      && (Consistent(b) && proceeds >= 0 ==> Consistent(r))
      && (b.Held(k) >= value ==> r.Equity() == b.Equity() + (proceeds - value))
      && r.Profit() == b.Profit() && r.cash == b.cash + proceeds
      && r.cfInvestment == b.cfInvestment + proceeds
      && r.Held(k) == Drawn(b.Held(k), value)
      && (forall other :: other != k ==> r.Held(other) == b.Held(other))
      && r.debt == b.debt && r.revenue == b.revenue && r.expenses == b.expenses
      && AppendsOne(b, r, turn, SaleKind(value, proceeds), proceeds)
  {
    assert k == Property || k == Inventory;
    AppendChained(b.history, Transaction(turn, SaleKind(value, proceeds), proceeds, Sold(k, proceeds - value), b.cash + proceeds));
  }

  /** Entries are appended in turn order: an entry of the current turn keeps
      a chronological log chronological. */
  lemma AppendChronological(before: Books, after: Books, turn: int, kind: TxKind, amount: int)
    requires Chronological(before.history, turn)
    requires AppendsOne(before, after, turn, kind, amount)
    ensures Chronological(after.history, turn)
  {
    var n := |before.history|;
    forall i | 0 <= i < n
      ensures after.history[i] == before.history[i]
    {
      assert after.history[..n][i] == before.history[i];
    }
  }

  /** Every posting stamps its entry with the current turn, so each keeps a
      log in turn order. */
  lemma PostingsChronological(b: Books, turn: int, kind: TxKind, k: AssetKind, amount: int, value: int, reason: Reason)
    requires Chronological(b.history, turn)
    ensures Chronological(Earn(b, turn, kind, amount, reason).history, turn)
    ensures Chronological(Spend(b, turn, amount, reason).history, turn)
    ensures Chronological(Borrow(b, turn, amount).history, turn)
    ensures Chronological(Acquire(b, turn, k, amount).history, turn)
    ensures Chronological(Dispose(b, turn, k, value, amount).history, turn)
  {
    EarnPosts(b, turn, kind, amount, reason);
    AppendChronological(b, Earn(b, turn, kind, amount, reason), turn, kind, amount);
    SpendPosts(b, turn, amount, reason);
    AppendChronological(b, Spend(b, turn, amount, reason), turn, Cost, -amount);
    BorrowPosts(b, turn, amount);
    AppendChronological(b, Borrow(b, turn, amount), turn, Loan, amount);
    AcquirePosts(b, turn, k, amount);
    AppendChronological(b, Acquire(b, turn, k, amount), turn, Acquisition, -amount);
    DisposePosts(b, turn, k, value, amount);
    AppendChronological(b, Dispose(b, turn, k, value, amount), turn, SaleKind(value, amount), amount);
  }

  /** A log stays chronological as the turn counter moves on. */
  lemma ChronologicalLater(h: seq<Transaction>, turn: int, later: int)
    requires Chronological(h, turn) && turn <= later
    ensures Chronological(h, later)
  {
  }

  /** A player of the game: its name, seat, position on the board and books. */
  class Player {
    const name: string
    const number: nat
    var position: nat
    var cash: int
    var assets: map<AssetKind, int>
    var debt: int
    var revenue: int
    var expenses: int
    var cfOperations: int
    var cfInvestment: int
    var cfFinancing: int
    var history: seq<Transaction>

    /** The books as they stand. */
    function Statement(): Books
      reads this`cash, this`assets, this`debt, this`revenue, this`expenses
      reads this`cfOperations, this`cfInvestment, this`cfFinancing, this`history
    {
      Books(cash, assets, debt, revenue, expenses, cfOperations, cfInvestment, cfFinancing, history)
    }

    constructor (name: string, number: nat)
      ensures this.name == name && this.number == number && position == 0
      ensures Statement() == Opening()
    {
      this.name := name;
      this.number := number;
      position := 0;
      var opening := Opening();
      cash := opening.cash;
      assets := opening.assets;
      debt := opening.debt;
      revenue := opening.revenue;
      expenses := opening.expenses;
      cfOperations := opening.cfOperations;
      cfInvestment := opening.cfInvestment;
      cfFinancing := opening.cfFinancing;
      history := opening.history;
    }

    /** Appends one log entry stamped with the given turn and the current
      cash; nothing else changes. */
    method AddTransaction(turn: int, kind: TxKind, amount: int, reason: Reason)
      modifies this
      ensures Statement() == Record(old(Statement()), turn, kind, amount, reason)
      ensures position == old(position)
    {
      history := history + [Transaction(turn, kind, amount, reason, cash)];
    }

    /** Adds a receipt to cash, revenue and operating cash flow, then logs it. */
    method ReceiveIncome(turn: int, kind: TxKind, amount: int, reason: Reason)
      modifies this
      ensures Statement() == Earn(old(Statement()), turn, kind, amount, reason)
      ensures position == old(position)
    {
      ghost var before := Statement();
      cash := cash + amount;
      revenue := revenue + amount;
      cfOperations := cfOperations + amount;
      assert Statement() == before.(cash := before.cash + amount, revenue := before.revenue + amount,
                                    cfOperations := before.cfOperations + amount);
      AddTransaction(turn, kind, amount, reason);
    }

    /** Takes a loss out of cash and operating cash flow, adds it to expenses,
        then logs it as a negative amount. */
    method PayCost(turn: int, amount: int, reason: Reason)
      modifies this
      ensures Statement() == Spend(old(Statement()), turn, amount, reason)
      ensures position == old(position)
    {
      ghost var before := Statement();
      cash := cash - amount;
      expenses := expenses + amount;
      cfOperations := cfOperations - amount;
      assert Statement() == before.(cash := before.cash - amount, expenses := before.expenses + amount,
                                    cfOperations := before.cfOperations - amount);
      AddTransaction(turn, Cost, -amount, reason);
    }

    /** Adds a loan to cash, debt and financing cash flow, then logs it. */
    method TakeLoan(turn: int, amount: int)
      modifies this
      ensures Statement() == Borrow(old(Statement()), turn, amount)
      ensures position == old(position)
    {
      ghost var before := Statement();
      cash := cash + amount;
      debt := debt + amount;
      cfFinancing := cfFinancing + amount;
      assert Statement() == before.(cash := before.cash + amount, debt := before.debt + amount,
                                    cfFinancing := before.cfFinancing + amount);
      AddTransaction(turn, Loan, amount, WorkingCapital);
    }

    /** Moves a purchase price from cash and investing cash flow into the
        bought bucket, then logs it as a negative amount. */
    method BuyAsset(turn: int, k: AssetKind, amount: int)
      requires k in assets
      modifies this
      ensures Statement() == Acquire(old(Statement()), turn, k, amount)
      ensures position == old(position)
    {
      ghost var before := Statement();
      cash := cash - amount;
      assets := assets[k := assets[k] + amount];
      cfInvestment := cfInvestment - amount;
      ghost var moved := Statement();
      assert moved == before.(cash := before.cash - amount, assets := before.assets[k := before.Held(k) + amount],
                              cfInvestment := before.cfInvestment - amount);
      AddTransaction(turn, Acquisition, -amount, Acquired(k));
    }

    /** Adds the proceeds of a sale to cash and investing cash flow, takes the
        value invested out of the sold bucket (setting it to zero should it go
        negative), then logs the proceeds as a gain or a loss. */
    method SellAsset(turn: int, k: AssetKind, value: int, proceeds: int)
      requires k in assets
      modifies this
      ensures Statement() == Dispose(old(Statement()), turn, k, value, proceeds)
      ensures position == old(position)
    {
      ghost var before := Statement();
      cash := cash + proceeds;
      var left := assets[k] - value;
      if left < 0 {
        left := 0;
      }
      assert left == Drawn(before.Held(k), value);
      assets := assets[k := left];
      cfInvestment := cfInvestment + proceeds;
      ghost var moved := Statement();
      assert moved == before.(cash := before.cash + proceeds, assets := before.assets[k := Drawn(before.Held(k), value)],
                              cfInvestment := before.cfInvestment + proceeds);
      var gain := proceeds - value;
      if gain >= 0 {
        AddTransaction(turn, SaleGain, proceeds, Sold(k, gain));
      } else {
        AddTransaction(turn, SaleLoss, proceeds, Sold(k, gain));
      }
    }
  }
}
