/** The turn clock: whose seat it is and which turn of the year is being
    played. Seats play round-robin; a turn is over once every seat has
    played it, and the game is over after the twelfth turn. */
module Turns {

  const LastTurn: nat := 12

  /** The turn being played and the seat whose move it is. */
  datatype Clock = Clock(turn: nat, current: nat)

  /** The clock a game starts with: the first turn, the first seat. */
  const Start: Clock := Clock(1, 0)

  /** Ending a move: the next seat plays, and the turn counter moves on
      exactly when the seat wraps round to the first one. */
  function Tick(c: Clock, seats: nat): (r: Clock)
    requires c.current < seats
    ensures r.current < seats
    ensures r.current == if c.current + 1 == seats then 0 else c.current + 1
    ensures r.turn == if r.current == 0 then c.turn + 1 else c.turn
  {
    var next := (c.current + 1) % seats;
    WrapStep(c.current, seats);
    Clock(if next == 0 then c.turn + 1 else c.turn, next)
  }

  /** The seat after the last one is the first. */
  lemma WrapStep(x: nat, n: nat)
    requires x < n
    ensures (x + 1) % n == if x + 1 == n then 0 else x + 1
  {
    if x + 1 < n {
      assert (x + 1) / n == 0;
    } else {
      assert (x + 1) / n == 1;
    }
  }

  /** The game is over once the turn counter has passed the last turn. */
  predicate Finished(c: Clock) {
    c.turn > LastTurn
  }

  /** The clock after `moves` moves from the start. */
  function AfterMoves(seats: nat, moves: nat): Clock
    requires seats > 0
  {
    if moves == 0 then Start
    else
      var c := AfterMoves(seats, moves - 1);
      if c.current < seats then Tick(c, seats) else c
  }

  /** After `rounds` full rounds and `seat` more moves, the turn is the one
      after those rounds and it is the move of seat `seat`. */
  lemma {:induction false} ClockAfter(seats: nat, moves: nat, rounds: nat, seat: nat)
    requires seat < seats && moves == rounds * seats + seat
    ensures AfterMoves(seats, moves) == Clock(1 + rounds, seat)
    decreases moves
  {
    if seat > 0 {
      ClockAfter(seats, moves - 1, rounds, seat - 1);
    } else if rounds > 0 {
      RoundBack(seats, rounds);
      ClockAfter(seats, moves - 1, rounds - 1, seats - 1);
    }
  }

  /** A full round less. */
  lemma RoundBack(seats: nat, rounds: nat)
    requires rounds > 0
    ensures rounds * seats == (rounds - 1) * seats + seats
  {
  }

  /** The game is over exactly once twelve full rounds have been played:
      every seat plays every one of the twelve turns and no more. */
  lemma GameLength(seats: nat, rounds: nat, seat: nat)
    requires seat < seats
    ensures Finished(AfterMoves(seats, rounds * seats + seat)) <==> rounds >= LastTurn
  {
    var moves := rounds * seats + seat;
    ClockAfter(seats, moves, rounds, seat);
  }

  /** The move that ends the twelfth round ends the game and hands the
      first seat the (unplayed) thirteenth turn. */
  lemma LastMove(seats: nat)
    requires seats > 0
    ensures AfterMoves(seats, LastTurn * seats) == Clock(LastTurn + 1, 0)
  {
    var moves := LastTurn * seats;
    ClockAfter(seats, moves, LastTurn, 0);
  }
}
