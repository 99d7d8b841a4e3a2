/** The session state of a game as a value, and what each button of the game
    screen does to it. Every step is a function from the state before the
    button to the state after it; the lemmas say which state is a sound one,
    that every step keeps the state sound, and what each step promises. */
module Play {
  import opened Optional
  import opened Board
  import opened Ledger
  import opened Events
  import opened BonusTime
  import opened Market
  import opened Turns
  import opened Ranking

  const MinPlayers: nat := 2
  const MaxPlayers: nat := 4

  /** One player as the session holds it: name, seat, place on the board and books. */
  datatype Seat = Seat(name: string, number: nat, position: nat, books: Books)

  /** The holding watched on its price chart: the candles, the candle the
      cursor is on, whether the sale was decided, and the value bought. */
  datatype Chart = Chart(candles: seq<Candle>, currentCandle: nat, sellDecisionMade: bool, assetValue: int)

  /** The state of the move being played: the dice, bonus time, the offer
      and the holding. */
  datatype Phase = Phase(diceRolled: bool, lastDice: Option<int>, bonusMode: bool,
                         investment: Proposal, chart: Chart)

  /** Everything the session keeps between two button presses. */
  datatype Table = Table(
    players: seq<Seat>,
    numPlayers: nat,
    board: seq<Cell>,
    current: nat,
    turn: nat,
    finished: bool,
    phase: Phase)

  /** Every player sits in its own seat, stands on the board, and its books
      keep the accounting identities. */
  predicate Seated(ps: seq<Seat>) {
    forall i :: 0 <= i < |ps| ==>
      ps[i].number == i && ps[i].position < BoardSize && Consistent(ps[i].books)
  }

  /** A chart the holding can be sold on: fifty candles, every close above zero. */
  predicate Quoted(candles: seq<Candle>) {
    |candles| == SeriesLength && forall i :: 0 <= i < |candles| ==> candles[i].close > 0
  }

  /** No holding means the cursor and the value are zero; an open holding
      has a fifty-candle chart, a cursor on it, no sale decided, and a value
      of 1000 to 3000 that the mover's bucket `held` covers. */
  predicate ChartOk(c: Chart, held: int) {
    && (c.candles == [] ==> c.currentCandle == 0 && c.assetValue == 0)
    && (c.candles != [] ==>
          && Quoted(c.candles) && c.currentCandle < |c.candles| && !c.sellDecisionMade
          && OfferRange.Has(c.assetValue) && held >= c.assetValue)
  }

  /** The move phase is consistent: the last die value is kept exactly
      while the dice are rolled; before the roll nothing is open; at most one
      of bonus time, the offer and the holding is open; an open offer is for
      1000 to 3000; and the chart is consistent with what the mover holds. */
  predicate PhaseOk(ph: Phase, mover: Books) {
    && (ph.diceRolled <==> ph.lastDice.Some?)
    && (ph.lastDice.Some? ==> 1 <= ph.lastDice.value <= 6)
    && (!ph.diceRolled ==> !ph.bonusMode && !ph.investment.pending && ph.chart.candles == [])
    && (ph.bonusMode ==> !ph.investment.pending && ph.chart.candles == [])
    && (ph.investment.pending ==> ph.chart.candles == [] && OfferRange.Has(ph.investment.amount))
    && ChartOk(ph.chart, mover.Held(ph.investment.kind))
  }

  /** A sound session: two to four seated players, a 72-cell board, a current
      seat among the players, a turn counter from 1 to 13 with the game
      finished exactly past turn 12, a finished game with the dice put back,
      and a consistent move phase. */
  predicate Ok(t: Table) {
    && t.numPlayers == |t.players| && MinPlayers <= t.numPlayers <= MaxPlayers
    && |t.board| == BoardSize && t.current < t.numPlayers
    && Seated(t.players)
    && 1 <= t.turn <= LastTurn + 1 && t.finished == (t.turn > LastTurn)
    && (t.finished ==> !t.phase.diceRolled)
    && PhaseOk(t.phase, t.players[t.current].books)
  }

  /** The turn-end button is shown: the dice are rolled and neither bonus
      time, nor an offer, nor a holding is open. */
  predicate CanEnd(t: Table) {
    t.phase.diceRolled && !t.phase.bonusMode && !t.phase.investment.pending && t.phase.chart.candles == []
  }

  /** A finished game admits no move: no button of the game screen is shown,
      neither roll nor turn end, nor bonus time, the offer or the chart. */
  lemma FinishedIdle(t: Table)
    requires Ok(t) && t.finished
    ensures !CanRoll(t) && !CanEnd(t)
    ensures !t.phase.bonusMode && !t.phase.investment.pending && !SellOpen(t) && t.phase.chart.candles == []
  {
  }

  /** The current player. */
  function Mover(t: Table): Seat
    requires t.current < |t.players|
  {
    t.players[t.current]
  }

  /** The players with the current one's books replaced. */
  function WithBooks(t: Table, b: Books): seq<Seat>
    requires t.current < |t.players|
  {
    t.players[t.current := Mover(t).(books := b)]
  }

  // ---------------------------------------------------------------- start

  /** The seats a game starts with: one per name, in order, on the start
      cell with the opening books. */
  function Seats(names: seq<string>): (r: seq<Seat>)
    ensures |r| == |names|
    ensures forall i :: 0 <= i < |r| ==> r[i] == Seat(names[i], i, 0, Opening())
  {
    seq(|names|, i requires 0 <= i < |names| => Seat(names[i], i, 0, Opening()))
  }

  /** The move phase at the start of every move: nothing rolled, nothing
      open, the offer and chart fields at their initial values. */
  const Fresh: Phase := Phase(false, None, false, Proposal(false, 0, Property, 0), Chart([], 0, false, 0))

  /** The state after the start button. */
  function Started(names: seq<string>, board: seq<Cell>): Table {
    Table(Seats(names), |names|, board, 0, 1, false, Fresh)
  }

  /** A start with two to four names and a full board is sound, with the
      first seat to move in the first turn, nothing open, and every player
      in its seat on the start cell with the opening books. */
  lemma StartedOk(names: seq<string>, board: seq<Cell>)
    requires MinPlayers <= |names| <= MaxPlayers && |board| == BoardSize
    ensures Ok(Started(names, board))
    ensures var t := Started(names, board);
      t.current == 0 && t.turn == 1 && !t.finished && CanRoll(t) && !CanEnd(t)
    ensures forall i :: 0 <= i < |names| ==>
      var p := Started(names, board).players[i];
      p.name == names[i] && p.number == i && p.position == 0 && p.books == Opening()
  {
    StartedSound(names, board);
  }

  /** The start is a sound session. */
  lemma StartedSound(names: seq<string>, board: seq<Cell>)
    requires MinPlayers <= |names| <= MaxPlayers && |board| == BoardSize
    ensures Ok(Started(names, board))
  {
    var t := Started(names, board);
    SeatsSeated(names);
    FreshOk(t.players[0].books);
  }

  /** Nothing is open at the start of a move, whatever the mover holds. */
  lemma FreshOk(b: Books)
    ensures PhaseOk(Fresh, b)
  {
  }

  /** The opening seats are seated. */
  lemma SeatsSeated(names: seq<string>)
    ensures Seated(Seats(names))
  {
    var ps := Seats(names);
    forall i | 0 <= i < |ps|
      ensures ps[i].number == i && ps[i].position < BoardSize && Consistent(ps[i].books)
    {
      OpeningConsistent(ps[i].books);
    }
  }

  // ----------------------------------------------------------------- roll

  /** The roll button is shown: the game runs and the dice are not rolled. */
  predicate CanRoll(t: Table) {
    !t.finished && !t.phase.diceRolled
  }

  /** Where a roll of `dice` takes the current player. */
  function Target(t: Table, dice: int): (r: nat)
    requires Ok(t) && 1 <= dice <= 6
    ensures r < BoardSize
  {
    Move(Mover(t).position, dice)
  }

  /** The state after rolling `dice` with random choices `d`: the current
      player moves round the loop; a bonus cell opens bonus time; any other
      cell applies its effect, and an investment cell opens its offer. */
  function Rolled(t: Table, dice: int, d: Draw): Table
    requires Ok(t) && 1 <= dice <= 6
    requires DrawFits(t.board[Target(t, dice)], d)
  {
    var position := Target(t, dice);
    var cell := t.board[position];
    var p := Mover(t);
    var ph := t.phase.(lastDice := Some(dice), diceRolled := true);
    if cell == Bonus then
      t.(players := t.players[t.current := p.(position := position)],
         phase := ph.(bonusMode := true))
    else
      var seat := p.(position := position, books := Effect(p.books, cell, t.turn, d));
      var offer := OfferAfter(t.phase.investment, cell, d, position);
      t.(players := t.players[t.current := seat],
         phase := ph.(bonusMode := false, investment := offer))
  }

  /** A roll keeps the session sound. */
  lemma RolledOk(t: Table, dice: int, d: Draw)
    requires Ok(t) && CanRoll(t) && 1 <= dice <= 6
    requires DrawFits(t.board[Target(t, dice)], d)
    ensures Ok(Rolled(t, dice, d))
  {
    var cell := t.board[Target(t, dice)];
    EffectConsistent(Mover(t).books, cell, t.turn, d);
  }

  /** A roll moves the current player `dice` cells round the loop and
      applies the landing cell's effect to its books; it keeps the die value,
      opens bonus time exactly on a bonus cell and an offer exactly on an
      investment cell, and leaves every other player, the board and the
      clock as they were. The turn can then end at once exactly when the
      cell is neither a bonus nor an investment cell. */
  lemma RollEffect(t: Table, dice: int, d: Draw)
    requires Ok(t) && CanRoll(t) && 1 <= dice <= 6
    requires DrawFits(t.board[Target(t, dice)], d)
    ensures var r := Rolled(t, dice, d); var cell := t.board[Target(t, dice)];
      && |r.players| == |t.players| && r.current == t.current && r.turn == t.turn && r.board == t.board
      && Mover(r).position == (Mover(t).position + dice) % BoardSize
      && Mover(r).name == Mover(t).name && Mover(r).books == Effect(Mover(t).books, cell, t.turn, d)
      && (forall i :: 0 <= i < |t.players| && i != t.current ==> r.players[i] == t.players[i])
      && r.phase.diceRolled && r.phase.lastDice == Some(dice)
      && r.phase.bonusMode == (cell == Bonus) && r.phase.investment.pending == (cell == Investment)
      && (cell == Investment ==>
            r.phase.investment == Proposal(true, d.amount, d.asset, Mover(r).position))
      && (CanEnd(r) <==> cell != Bonus && cell != Investment)
  {
  }

  // ---------------------------------------------------------- bonus time

  /** The state after the bottle-flip button with die value `dice` and flip
      outcomes `flips`: the payout for the landed flips goes into the current
      player's books and bonus time closes. */
  function BonusPlayed(t: Table, dice: int, flips: seq<bool>): Table
    requires t.current < |t.players|
    requires 1 <= dice <= 6 && |flips| == dice
  {
    t.(players := WithBooks(t, BonusPayout(Mover(t).books, t.turn, Successes(flips))),
       phase := t.phase.(bonusMode := false))
  }

  /** Bonus time keeps the session sound, adds 500 per landed flip to the
      current player's equity, touches no other player, and lets the turn end. */
  lemma BonusPlayedOk(t: Table, dice: int, flips: seq<bool>)
    requires Ok(t) && t.phase.bonusMode
    requires 1 <= dice <= 6 && |flips| == dice
    ensures var r := BonusPlayed(t, dice, flips);
      && Ok(r) && CanEnd(r)
      && Mover(r).books.Equity() == Mover(t).books.Equity() + BonusPerSuccess * Successes(flips)
      && (forall i :: 0 <= i < |t.players| && i != t.current ==> r.players[i] == t.players[i])
  {
    PayoutEffect(Mover(t).books, t.turn, Successes(flips));
  }

  // ------------------------------------------------------ investment offer

  /** The state after the buy button, with `series` the chart a purchase
      opens: with enough cash the offer's price moves from cash into its
      bucket and the chart opens at its first candle with the price as the
      value held; without it nothing is bought. The offer closes either way. */
  function Bought(t: Table, series: seq<Candle>): Table
    requires t.current < |t.players|
  {
    var p := Mover(t);
    var offer := t.phase.investment;
    if p.books.cash >= offer.amount then
      t.(players := WithBooks(t, Acquire(p.books, t.turn, offer.kind, offer.amount)),
         phase := t.phase.(investment := offer.(pending := false),
                           chart := Chart(series, 0, false, offer.amount)))
    else
      t.(phase := t.phase.(investment := offer.(pending := false)))
  }

  /** Buying keeps the session sound. A purchase happens exactly when the
      cash covers the price; it keeps the current player's equity, and the
      turn can then end exactly when nothing was bought. */
  lemma BoughtOk(t: Table, series: seq<Candle>)
    requires Ok(t) && t.phase.investment.pending
    requires PriceSeries(series)
    ensures var r := Bought(t, series); var offer := t.phase.investment;
      && Ok(r)
      && (r.phase.chart.candles != [] <==> Mover(t).books.cash >= offer.amount)
      && Mover(r).books.Equity() == Mover(t).books.Equity()
      && (r.phase.chart.candles != [] ==>
            && Mover(r).books.cash == Mover(t).books.cash - offer.amount
            && Mover(r).books.Held(offer.kind) == Mover(t).books.Held(offer.kind) + offer.amount
            && r.phase.chart == Chart(series, 0, false, offer.amount))
      && (r.phase.chart.candles == [] ==> r == Declined(t))
      && (CanEnd(r) <==> r.phase.chart.candles == [])
      && (forall i :: 0 <= i < |t.players| && i != t.current ==> r.players[i] == t.players[i])
  {
    var p := Mover(t);
    AcquirePosts(p.books, t.turn, t.phase.investment.kind, t.phase.investment.amount);
  }

  /** The state after the decline button: the offer closes. */
  function Declined(t: Table): Table {
    t.(phase := t.phase.(investment := t.phase.investment.(pending := false)))
  }

  /** Declining keeps the session sound, changes no player, and lets the turn end. */
  lemma DeclinedOk(t: Table)
    requires Ok(t) && t.phase.investment.pending
    ensures Ok(Declined(t)) && CanEnd(Declined(t))
    ensures Declined(t).players == t.players
  {
  }

  // --------------------------------------------------------------- holding

  /** The sell section is shown: a chart is open and no sale was decided. */
  predicate SellOpen(t: Table) {
    t.phase.chart.candles != [] && !t.phase.chart.sellDecisionMade
  }

  /** The state after the next-candle button: the cursor moves one candle
      on, and stays on the last candle. */
  function Advanced(t: Table): Table {
    var c := t.phase.chart;
    if c.currentCandle < |c.candles| - 1 then
      t.(phase := t.phase.(chart := c.(currentCandle := c.currentCandle + 1)))
    else t
  }

  /** The state after the skip button: the cursor on the last candle. */
  function Skipped(t: Table): Table
    requires t.phase.chart.candles != []
  {
    var c := t.phase.chart;
    t.(phase := t.phase.(chart := c.(currentCandle := |c.candles| - 1)))
  }

  /** Moving the cursor keeps the session sound and the sale open; the
      next-candle button moves it by exactly one unless it is already on the
      last candle, and the skip button puts it on the last candle. */
  lemma CursorOk(t: Table)
    requires Ok(t) && SellOpen(t)
    ensures Ok(Advanced(t)) && SellOpen(Advanced(t)) && Ok(Skipped(t)) && SellOpen(Skipped(t))
    ensures t.phase.chart.currentCandle < SeriesLength - 1 ==>
      Advanced(t).phase.chart.currentCandle == t.phase.chart.currentCandle + 1
    ensures t.phase.chart.currentCandle == SeriesLength - 1 ==> Advanced(t) == t
    ensures Skipped(t).phase.chart.currentCandle == SeriesLength - 1
    ensures Advanced(t).players == t.players && Skipped(t).players == t.players
  {
  }

  /** The cash a sale at the cursor brings. */
  function Proceeds(t: Table): (r: int)
    requires Ok(t) && SellOpen(t)
    ensures r >= 0
  {
    var c := t.phase.chart;
    SaleProceeds(c.assetValue, c.candles[c.currentCandle].close, c.candles[0].close)
  }

  /** The state after the sell button: the proceeds go into cash, the value
      held leaves its bucket, and the holding closes. */
  function SoldOff(t: Table): Table
    requires Ok(t) && SellOpen(t)
  {
    var p := Mover(t);
    t.(players := WithBooks(t, Dispose(p.books, t.turn, t.phase.investment.kind,
                                        t.phase.chart.assetValue, Proceeds(t))),
       phase := t.phase.(chart := Chart([], 0, true, 0)))
  }

  /** Selling keeps the session sound and lets the turn end. It moves the
      current player's equity by exactly the gain or loss of the sale (the
      bucket always holds the value bought), logs the sale as a gain exactly
      when the proceeds cover the value bought, and touches no other player. */
  lemma SoldOk(t: Table)
    requires Ok(t) && SellOpen(t)
    ensures var r := SoldOff(t); var value := t.phase.chart.assetValue;
      && Ok(r) && CanEnd(r) && r.phase.chart.sellDecisionMade
      && Mover(r).books.Equity() == Mover(t).books.Equity() + (Proceeds(t) - value)
      && Mover(r).books.cash == Mover(t).books.cash + Proceeds(t)
      && Mover(r).books.history[|Mover(r).books.history| - 1].kind
           == (if Proceeds(t) >= value then SaleGain else SaleLoss)
      && (forall i :: 0 <= i < |t.players| && i != t.current ==> r.players[i] == t.players[i])
  {
    var p := Mover(t);
    DisposePosts(p.books, t.turn, t.phase.investment.kind, t.phase.chart.assetValue, Proceeds(t));
  }

  /** Selling on the first candle gives back exactly the value bought. */
  lemma SaleAtOpening(t: Table)
    requires Ok(t) && SellOpen(t) && t.phase.chart.currentCandle == 0
    ensures Proceeds(t) == t.phase.chart.assetValue
  {
    var c := t.phase.chart;
    ProceedsAgainstInvested(c.assetValue, c.candles[0].close, c.candles[0].close);
  }

  // -------------------------------------------------------------- turn end

  /** The state after the turn-end button: the next seat moves, the turn
      counter moves on when the seats wrap round, the dice are put back, and
      the game is finished once the counter has passed the last turn. */
  function Ended(t: Table): Table
    requires t.current < t.numPlayers
  {
    var c := Tick(Clock(t.turn, t.current), t.numPlayers);
    t.(current := c.current, turn := c.turn, finished := c.turn > LastTurn,
       phase := t.phase.(lastDice := None, diceRolled := false))
  }

  /** Ending the turn keeps the session sound, leaves every player as it
      is, hands the move to the next seat round the table, advances the turn
      exactly when that seat is the first, and finishes the game exactly
      when the twelfth turn is over; otherwise the next seat may roll. */
  lemma EndedOk(t: Table)
    requires Ok(t) && !t.finished && CanEnd(t)
    ensures var r := Ended(t);
      && Ok(r) && r.players == t.players && CanRoll(r) == !r.finished
      && Clock(r.turn, r.current) == Tick(Clock(t.turn, t.current), t.numPlayers)
      && (r.finished <==> t.turn == LastTurn && t.current == t.numPlayers - 1)
  {
  }

  /** Ending the turn never moves the turn counter back, so every log that
      was in turn order stays in order under the new counter. */
  lemma EndedChronological(t: Table)
    requires Ok(t) && !t.finished && CanEnd(t)
    requires forall i :: 0 <= i < |t.players| ==> Chronological(t.players[i].books.history, t.turn)
    ensures forall i :: 0 <= i < |Ended(t).players| ==>
      Chronological(Ended(t).players[i].books.history, Ended(t).turn)
  {
    var r := Ended(t);
    EndedOk(t);
    forall i | 0 <= i < |r.players|
      ensures Chronological(r.players[i].books.history, r.turn)
    {
      ChronologicalLater(t.players[i].books.history, t.turn, r.turn);
    }
  }

  // --------------------------------------------------------------- ranking

  /** The players as the ranking sees them: seat and equity. */
  function Standings(ps: seq<Seat>): (r: seq<Standing>)
    ensures |r| == |ps|
    ensures forall i :: 0 <= i < |r| ==> r[i] == Standing(i, ps[i].books.Equity())
  {
    seq(|ps|, i requires 0 <= i < |ps| => Standing(i, ps[i].books.Equity()))
  }

  /** The final ranking: every player once, by descending equity, equal
      equity in seat order, the first with the most equity of all. */
  function Rankings(t: Table): (r: seq<Standing>)
    requires Ok(t)
    ensures |r| == |t.players| && multiset(r) == multiset(Standings(t.players))
    ensures Ranked(r)
    ensures forall i :: 0 <= i < |t.players| ==> r[0].equity >= t.players[i].books.Equity()
  {
    var s := Standings(t.players);
    RankPermutes(s);
    RankRanked(s);
    WinnerHasMostEquity(s);
    assert forall i :: 0 <= i < |t.players| ==> s[i].equity == t.players[i].books.Equity();
    Rank(s)
  }
}
