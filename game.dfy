/** A game session: the players, the board, whose move it is, the turn, and
    the state of the move being played. Each button of the game screen is a
    method that changes the session in place; each of them is proved to
    leave exactly the state its step in `Play` describes. */
module Game {
  import opened Optional
  import opened Board
  import opened Ledger
  import opened Events
  import opened BonusTime
  import opened Market
  import opened Turns
  import opened Ranking
  import opened Play

  class Session {
    var players: seq<Seat>
    var numPlayers: nat
    var board: seq<Cell>
    var current: nat
    var turn: nat
    var finished: bool
    var phase: Phase

    /** The session as a value. */
    function Snapshot(): Table
      reads this
    {
      Table(players, numPlayers, board, current, turn, finished, phase)
    }

    /** The session is a sound one. */
    ghost predicate Valid()
      reads this
    {
      Ok(Snapshot())
    }

    /** The start button: one player per name in seat order with the
        opening books, the board laid out from the generator's random
        choices, the first seat to move in the first turn, nothing open. */
    constructor Start(names: seq<string>, shuffled: seq<Cell>, investmentPositions: seq<nat>, bonusPositions: seq<nat>)
      requires MinPlayers <= |names| <= MaxPlayers
      requires LayoutDraws(shuffled, investmentPositions, bonusPositions)
      ensures Snapshot() == Started(names, board)
      ensures LaidOut(board, shuffled, investmentPositions, bonusPositions)
      ensures Valid()
    {
      var laid := GenerateBoard(shuffled, investmentPositions, bonusPositions);
      StartedOk(names, laid);
      numPlayers := |names|;
      players := Seats(names);
      board := laid;
      current := 0;
      turn := 1;
      finished := false;
      phase := Fresh;
    }

    /** The roll button with die value `dice` and the landing cell's random
        choices `d`; answers the cell landed on. */
    method Roll(dice: int, d: Draw) returns (cell: Cell)
      requires Valid() && CanRoll(Snapshot()) && 1 <= dice <= 6
      requires DrawFits(board[Target(Snapshot(), dice)], d)
      modifies this
      ensures Snapshot() == Rolled(old(Snapshot()), dice, d)
      ensures cell == board[players[current].position]
      ensures Valid()
    {
      RolledOk(Snapshot(), dice, d);
      phase := phase.(lastDice := Some(dice));
      var p := players[current];
      var position := Move(p.position, dice);
      cell := board[position];
      if cell == Bonus {
        players := players[current := p.(position := position)];
        phase := phase.(bonusMode := true);
      } else {
        players := players[current := p.(position := position, books := Effect(p.books, cell, turn, d))];
        if cell == Investment {
          phase := phase.(investment := Proposal(true, d.amount, d.asset, position));
        }
        phase := phase.(bonusMode := false);
      }
      phase := phase.(diceRolled := true);
    }

    /** The bottle-flip button with die value `dice` and flip outcomes
        `flips`; answers the bonus paid. */
    method PlayBonus(dice: int, flips: seq<bool>) returns (bonus: int)
      requires Valid() && phase.bonusMode
      requires 1 <= dice <= 6 && |flips| == dice
      modifies this
      ensures Snapshot() == BonusPlayed(old(Snapshot()), dice, flips)
      ensures bonus == BonusPerSuccess * Successes(flips)
      ensures Valid()
    {
      BonusPlayedOk(Snapshot(), dice, flips);
      var p := players[current];
      var successCount := CountSuccesses(dice, flips);
      bonus := successCount * BonusPerSuccess;
      players := players[current := p.(books := BonusPayout(p.books, turn, successCount))];
      phase := phase.(bonusMode := false);
    }

    /** The buy button, with `series` the chart a purchase opens; answers
        whether the purchase was made. */
    method Buy(series: seq<Candle>) returns (bought: bool)
      requires Valid() && phase.investment.pending
      requires PriceSeries(series)
      modifies this
      ensures Snapshot() == Bought(old(Snapshot()), series)
      ensures bought <==> old(players[current].books.cash) >= old(phase.investment.amount)
      ensures Valid()
    {
      BoughtOk(Snapshot(), series);
      var p := players[current];
      var offer := phase.investment;
      bought := p.books.cash >= offer.amount;
      if bought {
        players := players[current := p.(books := Acquire(p.books, turn, offer.kind, offer.amount))];
        phase := phase.(chart := Chart(series, 0, false, offer.amount));
      }
      phase := phase.(investment := offer.(pending := false));
    }

    /** The decline button. */
    method Decline()
      requires Valid() && phase.investment.pending
      modifies this
      ensures Snapshot() == Declined(old(Snapshot()))
      ensures Valid()
    {
      DeclinedOk(Snapshot());
      phase := phase.(investment := phase.investment.(pending := false));
    }

    /** The next-candle button; answers whether the cursor moved (on the
        last candle it stays and the screen warns). */
    method NextCandle() returns (advanced: bool)
      requires Valid() && SellOpen(Snapshot())
      modifies this
      ensures Snapshot() == Advanced(old(Snapshot()))
      ensures advanced <==> old(phase.chart.currentCandle) < SeriesLength - 1
      ensures Valid()
    {
      CursorOk(Snapshot());
      var c := phase.chart;
      advanced := c.currentCandle < |c.candles| - 1;
      if advanced {
        phase := phase.(chart := c.(currentCandle := c.currentCandle + 1));
      }
    }

    /** The skip-to-the-end button. */
    method SkipToEnd()
      requires Valid() && SellOpen(Snapshot())
      modifies this
      ensures Snapshot() == Skipped(old(Snapshot()))
      ensures Valid()
    {
      CursorOk(Snapshot());
      phase := phase.(chart := phase.chart.(currentCandle := |phase.chart.candles| - 1));
    }

    /** The sell button; answers the cash the sale brought. */
    method Sell() returns (proceeds: int)
      requires Valid() && SellOpen(Snapshot())
      modifies this
      ensures Snapshot() == SoldOff(old(Snapshot()))
      ensures proceeds == Proceeds(old(Snapshot()))
      ensures Valid()
    {
      SoldOk(Snapshot());
      proceeds := Proceeds(Snapshot());
      var p := players[current];
      var c := phase.chart;
      players := players[current := p.(books := Dispose(p.books, turn, phase.investment.kind, c.assetValue, proceeds))];
      phase := phase.(chart := Chart([], 0, true, 0));
    }

    /** The turn-end button. */
    method EndTurn()
      requires Valid() && !finished && CanEnd(Snapshot())
      modifies this
      ensures Snapshot() == Ended(old(Snapshot()))
      ensures Valid()
    {
      EndedOk(Snapshot());
      current := (current + 1) % numPlayers;
      if current == 0 {
        turn := turn + 1;
      }
      phase := phase.(lastDice := None, diceRolled := false);
      finished := turn > LastTurn;
    }

    /** The final standings, best first. */
    method FinalRanking() returns (r: seq<Standing>)
      requires Valid()
      ensures r == Rankings(Snapshot())
    {
      r := Rankings(Snapshot());
    }
  }
}
