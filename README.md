# Annual-profit sugoroku: a verified model of the game engine

The game is a board game for two to four players. Each player runs a small company
that starts with 5000 yen in cash. Players take turns rolling a die and moving round
a loop of 72 cells. The landed cell decides what happens:

- a **profit** cell posts income;
- a **loss** cell posts a cost;
- a **debt** cell posts a loan;
- an **investment** cell offers an asset of the property or inventory bucket at a price;
  once bought, the asset is watched on a 50-candle price chart until it is sold;
- a **bonus** cell starts bottle-flip bonus time, which pays 500 yen per landed flip;
- an empty cell does nothing.

Every posting goes into the player's books and its transaction log. The books are
cash, two asset buckets, one debt bucket, revenue, expenses and three cash-flow
accumulators. After twelve turns the players are ranked by equity.

The model is split into one module per part of the engine:

- `Ledger` holds the books as a value (`Books`), with their derived totals and the
  postings each event makes. It also has the player as a class (`Player`) whose
  methods change the books in place. Each method is proved to leave exactly the
  books the matching posting function describes.
- `Board` holds the cell kinds, the weighted bag the track is drawn from, the board
  generator and movement round the loop.
- `Events` holds the profit and loss event tables, the loan and offer ranges, and
  the cell-effect resolver.
- `BonusTime` models the bottle-flip loop and its payout.
- `Market` holds the price series and the sale proceeds, with prices in hundredths.
- `Turns` models the round-robin clock and when the game ends.
- `Ranking` models the final stable sort by equity.
- `Play` describes the whole session as a value (`Table`). It states when a session
  is sound (`Ok`) and has one step function per button of the game screen. Lemmas
  prove that every step keeps the session sound and state what each step promises.
- `Game` models the session as a class (`Session`) whose fields are the session
  state. It has one method per button, and each method is proved to leave exactly
  the state its `Play` step describes.

Randomness is taken as parameters, each under the precondition the random call
guarantees:

- the die value, in 1..6;
- the event index and the amount drawn, within the event's range;
- the offered bucket;
- the order the shuffle leaves the bag in, which is any rearrangement of the bag;
- the sampled investment and bonus positions;
- the flip outcomes;
- the price series a purchase opens.

A button that is only shown in some states becomes a precondition on its method:

- the roll button needs the dice not yet rolled;
- the bottle-flip button needs bonus time;
- buy and decline need an open offer;
- next, sell and skip need an open holding;
- turn end needs the dice rolled and nothing open.

## Model

| member | source | states |
|---|---|---|
| Ledger.OpeningConsistent | app.py:62-74 | The opening books satisfy every accounting identity. |
| Ledger.OpeningEquity | app.py:62-83 | The opening books have equity 5000, profit 0 and an empty log. |
| Ledger.Books.TotalAssets | app.py:76-77 | Total assets are cash plus both buckets, so they are never less than the cash while no bucket is negative. |
| Ledger.Totals | app.py:76-83 | Total assets are cash plus both buckets, equity is total assets less the debt, and profit is revenue less expenses. In consistent books, total assets are at least the cash, profit equals operating cash flow, and the loans cancel out of equity: equity is the opening 5000 plus the profit plus what the buckets hold beyond the net cash paid for them. |
| Ledger.Player.constructor | app.py:62-74 | A new player has its name and seat, stands on cell 0 and holds exactly the opening books. |
| Ledger.AppendChained | app.py:85-92 | The log's last cash-after is the new entry's. The log stays chained exactly when the new entry moves the cash on from where the log left it by its own amount. |
| Ledger.ChainedReplays | app.py:85-92 | In a chained log, the last cash-after is the opening cash plus the sum of all amounts. |
| Ledger.Player.AddTransaction | app.py:85-92 | Appends exactly one entry, stamped with the given turn and the current cash. Everything else stays as it was. |
| Ledger.AppendChronological | app.py:85-92 | Appending an entry of the current turn keeps the log in turn order. |
| Ledger.ChronologicalLater | app.py:85-92 | A log in turn order stays in order as the turn counter moves on. |
| Ledger.PostingsChronological | app.py:85-92 | Income, cost, loan, purchase and sale postings each stamp their entry with the current turn, so each keeps the log in turn order. |
| Ledger.EarnPosts | app.py:280-283 | Income raises cash, revenue and operating cash flow by its amount, so equity and profit rise by it too. Nothing else moves, the identities are kept, and one entry of the amount is logged. |
| Ledger.SpendPosts | app.py:289-292 | A cost lowers cash and operating cash flow, raises expenses, and lowers equity and profit by its amount. The identities are kept and one negative entry is logged. |
| Ledger.BorrowPosts | app.py:297-300 | A loan raises cash, debt and financing cash flow by its amount and leaves equity and profit unchanged. The identities are kept and one entry is logged. |
| Ledger.AcquirePosts | app.py:543-546 | A purchase moves its price from cash into the bought bucket and out of investing cash flow. Equity, profit and the other bucket are unchanged, the identities are kept, and one negative entry is logged. |
| Ledger.Drawn | app.py:627-629 | The bucket after removing the value is never negative: it is the difference when the bucket covers the value, and 0 otherwise. |
| Ledger.DisposePosts | app.py:626-637 | A sale adds the proceeds to cash and investing cash flow and removes the value from the bucket, clamped at 0. It keeps profit and the identities and logs one entry of the proceeds. When the bucket covers the value, equity moves by exactly the gain or loss. |
| Ledger.Player.ReceiveIncome | app.py:280-283 | Changes the player's books into exactly the income posting. The position is unchanged. |
| Ledger.Player.PayCost | app.py:289-292 | Changes the player's books into exactly the cost posting. The position is unchanged. |
| Ledger.Player.TakeLoan | app.py:297-300 | Changes the player's books into exactly the loan posting. The position is unchanged. |
| Ledger.Player.BuyAsset | app.py:543-546 | Changes the player's books into exactly the purchase posting. The position is unchanged. |
| Ledger.Player.SellAsset | app.py:626-637 | Changes the player's books into exactly the sale posting, clamp and gain or loss label included. The position is unchanged. |
| Board.Repeat | app.py:99-100 | Gives exactly n copies of the kind, and nothing else. |
| Board.BagCounts | app.py:99-100 | The bag extended kind by kind is as long as the total weight and holds each kind as often as the weights give it. |
| Board.TableWeights | app.py:30-37 | The weights add up to 72, and each kind's share of them is its own weight. |
| Board.BagFillsBoard | app.py:99-109 | The bag holds exactly 72 tags, so no cell is ever padded with "nothing". |
| Board.BagComposition | app.py:30-37 | The bag holds each kind exactly as often as its weight, for example ten investment and two bonus tags. |
| Board.ShuffleOfBag | app.py:102 | A shuffled list has each kind as often as its weight exactly when it is a rearrangement of the bag. |
| Board.ShuffleFillsBoard | app.py:102-109 | A shuffled bag is exactly as long as the board. |
| Board.FillBag | app.py:97-100 | The extend loop produces exactly the weighted bag. |
| Board.CopyOnto | app.py:105-109 | Gives 72 cells, holding the list's entry where it has one and "nothing" past its end. |
| Board.Force | app.py:112-119 | Every listed position holds the forced kind, and every other cell is unchanged. |
| Board.GenerateBoard | app.py:95-121 | The board has 72 cells. Every sampled investment position holds an investment cell and every sampled bonus position holds a bonus cell. Every other cell holds the shuffled bag's tag at that index. |
| Board.Move | app.py:493 | The new position is on the board and differs from the old one. It is the old position plus the die value, less 72 when that passes the end. |
| Events.EffectLogs | app.py:271-315 | Profit, loss and debt cells append one log entry of the current turn and keep the earlier entries. Empty, investment and bonus cells leave the books exactly as they were. |
| Events.EffectConsistent | app.py:271-315 | No cell's effect breaks an accounting identity. |
| Events.ProfitEffect | app.py:277-284 | A profit cell's gain is within the chosen event's inclusive range. Revenue, operating cash flow and equity gain the same amount, and debt and expenses are unchanged. |
| Events.LossEffect | app.py:286-293 | A loss cell's cost is within the chosen event's inclusive range. Expenses gain it, and operating cash flow and equity lose it. Debt and revenue are unchanged, and cash has no floor. |
| Events.DebtEffect | app.py:295-301 | A debt cell adds 1000 to 5000 to cash, debt and financing cash flow, and leaves equity and profit unchanged. |
| Events.EffectChronological | app.py:277-300 | A cell's effect keeps the log in turn order. |
| Events.EffectBounds | app.py:43-58 | A cell changes the cash by at most +4000 on profit, -2000 on loss and +5000 on debt. |
| Events.ApplyMassEffect | app.py:271-315 | Changes the player's books into exactly the cell's effect and leaves the position as it is. On an investment cell, and only there, it opens the session's offer with the drawn price and bucket at the player's position. Any other cell leaves the offer as it was. The new offer is the one the session's roll step opens. |
| BonusTime.Successes | app.py:325-330 | The number of landed flips is at most the number of flips. It equals that number exactly when all flips land, and is 0 exactly when none do. |
| BonusTime.PayoutEffect | app.py:334-339 | The payout adds exactly 500 per landed flip to cash, revenue, operating cash flow and equity, and keeps the identities. It logs one entry exactly when a flip landed, and otherwise leaves the books unchanged. |
| BonusTime.PayoutChronological | app.py:334-339 | The bonus payout keeps the log in turn order. |
| BonusTime.PayoutBound | app.py:319-334 | With a die value of 1 to 6, the bonus is 0 to 3000, and it is 3000 exactly when all six flips land. |
| BonusTime.ExecuteBonusTime | app.py:318-342 | The counting loop returns 500 per landed flip, and the player's books become exactly the payout posting. |
| BonusTime.CountSuccesses | app.py:325-330 | The loop over one flip per pip of the die counts exactly the flips that land. |
| Market.SaleProceeds | app.py:622-625 | The proceeds are the whole-yen floor of the invested value times the chosen close divided by the first close. |
| Market.ProceedsAgainstInvested | app.py:622-633 | A sale at the first close returns exactly the value invested. A sale covers the value invested exactly when the close has not fallen below the first close. |
| Market.ProceedsMonotone | app.py:622-625 | A higher close never brings less. |
| Turns.Tick | app.py:664-668 | The next seat is the one after, or seat 0 after the last seat. The turn counter rises exactly when the seat wraps round to 0. |
| Turns.ClockAfter | app.py:664-668 | After r full rounds and s more moves from the start, it is turn r+1 and seat s's move. |
| Turns.GameLength | app.py:664-675 | The game is finished exactly once twelve full rounds have been played. |
| Turns.LastMove | app.py:664-675 | The move that ends round twelve hands turn 13 to seat 0. |
| Ranking.InsertPermutes | app.py:696 | Inserting adds exactly the one entry. |
| Ranking.InsertRanked | app.py:696 | Inserting an entry with an earlier seat than all others into a ranked list keeps it ranked. |
| Ranking.RankPermutes | app.py:696 | The ranking is a permutation of the players. |
| Ranking.RankRanked | app.py:696 | Over players in seat order, equity never increases down the ranking, and equal equity keeps the earlier seat first. |
| Ranking.WinnerHasMostEquity | app.py:696 | The first of the ranking has at least the equity of every player. |
| Play.SeatsSeated | app.py:436-437 | Every opening seat has its own number, stands on the board and has consistent books. |
| Play.StartedOk | app.py:435-451 | A start with 2 to 4 names and a 72-cell board is sound. Seat 0 moves in turn 1, the game is not finished and nothing is open, so only the roll button shows. Every player is on cell 0 with the opening books. |
| Play.Target | app.py:493 | A roll always lands on the board. |
| Play.RolledOk | app.py:487-513 | A roll keeps the session sound. |
| Play.RollEffect | app.py:487-513 | The current player moves to (position + die) mod 72, and its books get exactly the landed cell's effect. The die value is kept. Bonus time opens exactly on a bonus cell, and an offer exactly on an investment cell, with that offer's price, bucket and position. Other players, the board and the clock are unchanged. The turn can end at once exactly when the cell is neither bonus nor investment. |
| Play.BonusPlayedOk | app.py:528-530 | Bonus time keeps the session sound and adds 500 per landed flip to the mover's equity. It touches no other player and lets the turn end. |
| Play.BoughtOk | app.py:540-558 | A purchase happens exactly when cash covers the price. It then moves the price from cash into the bucket, keeps equity, and opens the chart at candle 0 with the price as the value held. Otherwise the result is exactly the declined state. The offer closes either way. The turn can end exactly when nothing was bought, and other players are untouched. |
| Play.DeclinedOk | app.py:561-564 | Declining keeps the session sound, changes no player and lets the turn end. |
| Play.CursorOk | app.py:612-651 | Next moves the cursor by exactly one below the last candle and changes nothing on the last one. Skip puts the cursor on the last candle. Both keep the session sound, changing no player, and keep the sale open. |
| Play.Proceeds | app.py:622-624 | A sale never brings a negative amount. |
| Play.SoldOk | app.py:620-647 | A sale keeps the session sound, closes the holding and lets the turn end. It adds the proceeds to cash and moves equity by exactly the gain or loss. It logs a gain exactly when the proceeds cover the value bought, and touches no other player. |
| Play.SaleAtOpening | app.py:622-625 | Selling on the first candle returns exactly the value bought. |
| Play.EndedOk | app.py:660-677 | Ending the turn keeps the session sound and every player as they are. The next seat moves, and the turn counter rises on wrap-around. The game finishes exactly when seat n-1 ends turn 12; otherwise the next seat may roll. |
| Play.EndedChronological | app.py:664-668 | Ending the turn never moves the turn counter back, so every player's log that was in turn order stays in order under the new counter. |
| Play.FinishedIdle | app.py:670-675 | A finished game has its dice put back and nothing open, so no button of the game screen applies: not roll, turn end, bonus time, the offer or the chart. |
| Play.Rankings | app.py:696 | Gives every player once, by descending equity, with equal equity in seat order. The first player has the most equity of all. |
| Game.Session.Start | app.py:435-451 | The session becomes exactly the started state on a board laid out from the generator's choices, and is sound. |
| Game.Session.Roll | app.py:487-513 | The session becomes exactly the rolled state and stays sound. It returns the landed cell. |
| Game.Session.PlayBonus | app.py:528-530 | Counts the landed flips with the flip loop. The session becomes exactly the bonus-played state and stays sound. It returns 500 per landed flip. |
| Game.Session.Buy | app.py:540-558 | The session becomes exactly the bought state and stays sound. It reports a purchase exactly when cash covered the price. |
| Game.Session.Decline | app.py:561-564 | The session becomes exactly the declined state and stays sound. |
| Game.Session.NextCandle | app.py:612-617 | The session becomes exactly the advanced state and stays sound. It reports a move exactly when the cursor was below the last candle. |
| Game.Session.SkipToEnd | app.py:650-651 | The session becomes exactly the skipped state and stays sound. |
| Game.Session.Sell | app.py:620-647 | The session becomes exactly the sold state and stays sound. It returns the proceeds. |
| Game.Session.EndTurn | app.py:660-677 | The session becomes exactly the ended state and stays sound. |
| Game.Session.FinalRanking | app.py:696 | Returns the final ranking of the session's players. |

## Left out

- **Rendering:** the board view, the metrics, the sidebar, the financial statement view, the chart, the end-screen widgets and every message text are presentation only.
- **Random choices:** the die, the event choice, the amounts, the flips, the shuffle and the samples are parameters under the ranges the random calls guarantee. The samples' uniform distribution is not modelled.
- **Price-path generator:** it works in floating point. A purchase receives the series as an input satisfying `Market.PriceSeries`: 50 candles, each opening at the previous close, positive closes, and lows and highs bracketing each candle. The session invariant keeps only what a sale needs: 50 candles with positive closes.
- **Screen dispatch and reruns:** the choice between the start, game and end screens, the reruns, and the reset loop of the new-game button are left out. A sound finished session has its dice put back and nothing open (`Play.FinishedIdle`), so it admits no move.
- **Start screen:** the player-count input and the name inputs are parameters of the start.
- **Liabilities dictionary:** the source keeps a dictionary with a single debt entry. The model keeps that entry as one integer.
- **Log entry text:** the type and reason strings of a log entry are enumerations rather than text.
- **Initial offer bucket:** the source's empty initial bucket name is the property bucket in the model. It is never read before an offer sets it.
- **Values instead of shared objects:** `Game.Session` holds the players as `Play.Seat` values rather than shared `Player` objects, so the aliasing of a player between the session list and the screen's current-player variable is not modelled. The in-place updates of a player's books are modelled by `Ledger.Player`, `Events.ApplyMassEffect` and `BonusTime.ExecuteBonusTime`. They are proved against the same posting functions the session steps use. The session's bonus step runs the same flip loop, `BonusTime.CountSuccesses`.
- Market.SaleProceeds: computes the exact floor of invested × close / first close with prices in hundredths. The source divides two floating-point prices and truncates the float product, which can differ by one yen when the exact product lies within rounding error of a whole number.
- Events.EffectChronological: turn order of the log is proved for each posting (`Ledger.PostingsChronological`, `Events.EffectChronological`, `BonusTime.PayoutChronological`) and across the end of a turn (`Play.EndedChronological`), but it is not part of the session invariant `Play.Ok`.
- Board.GenerateBoard: does not state the number of investment and bonus cells. The bag already holds ten investment and two bonus tags before any position is forced, so the generated board has at least ten investment cells and at least two bonus cells, not exactly five and two. The contract states what the code guarantees: every sampled position ends up holding its forced kind.
