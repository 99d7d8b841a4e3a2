/** The final ranking: the players sorted by equity, largest first. The sort
    is stable, so players with the same equity keep their seat order. */
module Ranking {

  /** A player as the ranking sees it: its seat and its final equity. */
  datatype Standing = Standing(seat: nat, equity: int)

  /** `a` is ranked above `b`: more equity, or the same equity and an
      earlier seat. */
  predicate Above(a: Standing, b: Standing) {
    a.equity > b.equity || (a.equity == b.equity && a.seat < b.seat)
  }

  /** Every entry is ranked above every later one. */
  predicate Ranked(s: seq<Standing>) {
    forall i, j :: 0 <= i < j < |s| ==> Above(s[i], s[j])
  }

  /** The entries come in strictly increasing seat order, as the players do. */
  predicate InSeatOrder(s: seq<Standing>) {
    forall i, j :: 0 <= i < j < |s| ==> s[i].seat < s[j].seat
  }

  /** Puts `x` in front of the first entry with no more equity than it. */
  function Insert(x: Standing, s: seq<Standing>): seq<Standing> {
    if s == [] then [x]
    else if x.equity >= s[0].equity then [x] + s
    else [s[0]] + Insert(x, s[1..])
  }

  /** The players sorted by descending equity, ties kept in their order. */
  function Rank(s: seq<Standing>): seq<Standing> {
    if s == [] then [] else Insert(s[0], Rank(s[1..]))
  }

  /** Inserting adds the one entry and keeps all the others. */
  lemma {:induction false} InsertPermutes(x: Standing, s: seq<Standing>)
    ensures multiset(Insert(x, s)) == multiset(s) + multiset{x}
  {
    if s != [] && x.equity < s[0].equity {
      InsertPermutes(x, s[1..]);
      assert s == [s[0]] + s[1..];
    }
  }

  /** Inserting an entry whose seat comes before every seat of a ranked
      list keeps it ranked. */
  lemma {:induction false} InsertRanked(x: Standing, s: seq<Standing>)
    requires Ranked(s)
    requires forall i :: 0 <= i < |s| ==> x.seat < s[i].seat
    ensures Ranked(Insert(x, s))
  {
    if s != [] && x.equity < s[0].equity {
      InsertRanked(x, s[1..]);
      InsertPermutes(x, s[1..]);
      var t := Insert(x, s[1..]);
      forall j | 0 <= j < |t|
        ensures Above(s[0], t[j])
      {
        assert t[j] in multiset(t);
        assert t[j] in multiset(s[1..]) + multiset{x};
        if t[j] != x {
          assert t[j] in s[1..];
        }
      }
    }
  }

  /** Ranking rearranges the players and drops or adds none. */
  lemma {:induction false} RankPermutes(s: seq<Standing>)
    ensures multiset(Rank(s)) == multiset(s)
  {
    if s != [] {
      RankPermutes(s[1..]);
      InsertPermutes(s[0], Rank(s[1..]));
      assert s == [s[0]] + s[1..];
    }
  }

  /** Ranking players given in seat order puts every player above each one
      after it: equity never increases down the ranking and equal equity
      keeps the earlier seat first. */
  lemma {:induction false} RankRanked(s: seq<Standing>)
    requires InSeatOrder(s)
    ensures Ranked(Rank(s))
  {
    if s != [] {
      assert InSeatOrder(s[1..]);
      RankRanked(s[1..]);
      RankPermutes(s[1..]);
      var r := Rank(s[1..]);
      forall i | 0 <= i < |r|
        ensures s[0].seat < r[i].seat
      {
        assert r[i] in multiset(s[1..]);
        var k :| 0 <= k < |s[1..]| && s[1..][k] == r[i];
        assert s[k + 1] == r[i];
      }
      InsertRanked(s[0], r);
    }
  }

  /** So the first of the ranking has the largest equity of all players. */
  lemma WinnerHasMostEquity(s: seq<Standing>)
    requires InSeatOrder(s) && s != []
    ensures |Rank(s)| == |s|
    ensures forall i :: 0 <= i < |s| ==> Rank(s)[0].equity >= s[i].equity
  {
    RankPermutes(s);
    RankRanked(s);
    var r := Rank(s);
    assert |r| == |multiset(r)| == |multiset(s)| == |s|;
    forall i | 0 <= i < |s|
      ensures r[0].equity >= s[i].equity
    {
      assert s[i] in multiset(r);
      var k :| 0 <= k < |r| && r[k] == s[i];
      assert k == 0 || Above(r[0], r[k]);
    }
  }
}
