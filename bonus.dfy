/** Bonus time: a die says how many bottle flips the player makes, and every
    flip that lands pays a fixed bonus into the books. */
module BonusTime {
  import opened Ledger

  const BonusPerSuccess: int := 500

  /** How many of the flips landed. */
  function Successes(flips: seq<bool>): (r: nat)
    ensures r <= |flips|
    ensures r == |flips| <==> forall i :: 0 <= i < |flips| ==> flips[i]
    ensures r == 0 <==> forall i :: 0 <= i < |flips| ==> !flips[i]
  {
    if flips == [] then 0
    else
      var front := flips[..|flips| - 1];
      assert forall i :: 0 <= i < |front| ==> front[i] == flips[i];
      Successes(front) + if flips[|flips| - 1] then 1 else 0
  }

  /** The books after the payout for `successes` landed flips: the bonus
      posted as income when it is above zero, the books unchanged otherwise. */
  function BonusPayout(b: Books, turn: int, successes: nat): Books {
    var bonus := successes * BonusPerSuccess;
    if bonus > 0 then Earn(b, turn, BonusIncome, bonus, FlipSuccess) else b
  }

  /** The payout adds exactly the bonus to cash, revenue, operating cash flow
      and equity, keeps the accounting identities, and logs one entry of the
      bonus exactly when at least one flip landed. */
  lemma PayoutEffect(b: Books, turn: int, successes: nat)
    ensures var r := BonusPayout(b, turn, successes);
      && r.cash == b.cash + BonusPerSuccess * successes
      && r.revenue == b.revenue + BonusPerSuccess * successes
      && r.cfOperations == b.cfOperations + BonusPerSuccess * successes
      && r.Equity() == b.Equity() + BonusPerSuccess * successes
      && r.debt == b.debt && r.assets == b.assets && r.expenses == b.expenses
      && (Consistent(b) ==> Consistent(r))
    ensures var r := BonusPayout(b, turn, successes);
      && (successes > 0 ==> AppendsOne(b, r, turn, BonusIncome, BonusPerSuccess * successes))
      && (successes == 0 ==> r == b)
  {
    if successes > 0 {
      EarnPosts(b, turn, BonusIncome, successes * BonusPerSuccess, FlipSuccess);
    }
  }

  /** The payout is stamped with the current turn, so it keeps the log in
      turn order. */
  lemma PayoutChronological(b: Books, turn: int, successes: nat)
    requires Chronological(b.history, turn)
    ensures Chronological(BonusPayout(b, turn, successes).history, turn)
  {
    if successes > 0 {
      PostingsChronological(b, turn, BonusIncome, Property, successes * BonusPerSuccess, 0, FlipSuccess);
    }
  }

  /** With a die value of at most six the bonus is at most 3000, and it is
      3000 only when all six flips land. */
  lemma PayoutBound(flips: seq<bool>)
    requires 1 <= |flips| <= 6
    ensures 0 <= BonusPerSuccess * Successes(flips) <= 3000
    ensures BonusPerSuccess * Successes(flips) == 3000 <==> |flips| == 6 && forall i :: 0 <= i < 6 ==> flips[i]
  {
  }

  /** Counts the landed flips one by one, then pays 500 for each of them
      (nothing when none landed). The die value and the flip outcomes are
      the random draws. */
  method ExecuteBonusTime(p: Player, turn: int, dice: int, flips: seq<bool>) returns (bonus: int)
    requires 1 <= dice <= 6 && |flips| == dice
    modifies p
    ensures bonus == BonusPerSuccess * Successes(flips)
    ensures p.Statement() == BonusPayout(old(p.Statement()), turn, Successes(flips))
    ensures p.position == old(p.position)
  {
    var successCount := CountSuccesses(dice, flips);
    bonus := successCount * BonusPerSuccess;
    if bonus > 0 {
      p.ReceiveIncome(turn, BonusIncome, bonus, FlipSuccess);
    }
  }

  /** The flip loop: one flip per pip of the die, counting those that land. */
  method CountSuccesses(dice: int, flips: seq<bool>) returns (successCount: nat)
    requires 1 <= dice <= 6 && |flips| == dice
    ensures successCount == Successes(flips)
  {
    successCount := 0;
    var i := 0;
    while i < dice
      invariant 0 <= i <= dice
      invariant successCount == Successes(flips[..i])
    {
      assert flips[..i + 1][..i] == flips[..i];
      if flips[i] {
        successCount := successCount + 1;
      }
      i := i + 1;
    }
    assert flips[..dice] == flips;
  }
}
