/** src/strategy/BetStrategy.js: bet sizing from the true count and the
    bankroll, a fraction of Kelly rounded down to whole base units and capped.
    Amounts are exact reals. */
module Betting {
  import opened Results

  /** `maxBet` is set once by the constructor; `kellyMultiplier` stands for
      KELLY_MULTIPLIER of conf.js, which is not part of this model. */
  datatype BetStrategy = BetStrategy(maxBet: real, kellyMultiplier: real) {

    /** One six-hundredth of the bankroll. */
    function GetBaseBet(bankroll: real): (b: real)
      ensures b * 600.0 == bankroll
      ensures bankroll > 0.0 ==> 0.0 < b < bankroll
    {
      bankroll / (50.0 * 12.0)
    }

    /** The edge in percent: nothing at true count 1, half a percent more per
        count. */
    function GetEdge(trueCount: real): (e: real)
      ensures 2.0 * e + 1.0 == trueCount
      ensures e >= 0.0 <==> trueCount >= 1.0
    {
      (trueCount - 1.0) * 0.5
    }

    function GetOptimalPercent(trueCount: real): (p: real)
      ensures kellyMultiplier >= 0.0 && trueCount >= 1.0 ==> p >= 0.0
    {
      GetEdge(trueCount) * kellyMultiplier
    }

    /** The base bet below a true count of 2, else the Kelly share of one
        percent of the bankroll per percent of edge. */
    function GetOptimalBet(trueCount: real, bankroll: real): (o: real)
      ensures trueCount < 2.0 ==> o == GetBaseBet(bankroll)
      ensures trueCount >= 2.0 ==> o == (bankroll / 100.0) * GetOptimalPercent(trueCount)
      ensures bankroll >= 0.0 && kellyMultiplier >= 0.0 ==> o >= 0.0
    {
      if trueCount < 2.0 then GetBaseBet(bankroll)
      else (bankroll / 100.0) * GetOptimalPercent(trueCount)
    }

    /** How many whole base bets the optimal bet holds (`Math.floor(optimal / base)`). */
    function BetUnits(trueCount: real, bankroll: real): int
      requires bankroll != 0.0
    {
      (GetOptimalBet(trueCount, bankroll) / GetBaseBet(bankroll)).Floor
    }

    /** The optimal bet rounded down to whole base bets, capped at `maxBet`.
        With no bankroll the base bet is 0 and JS computes NaN: None here. */
    function GetBet(trueCount: real, bankroll: real): (r: Option<real>)
      ensures r.Some? <==> bankroll != 0.0
      ensures r.Some? ==> r.value <= maxBet
      ensures bankroll != 0.0 && BetUnits(trueCount, bankroll) as real * GetBaseBet(bankroll) <= maxBet ==>
        r == Some(BetUnits(trueCount, bankroll) as real * GetBaseBet(bankroll))
      ensures bankroll != 0.0 && BetUnits(trueCount, bankroll) as real * GetBaseBet(bankroll) > maxBet ==>
        r == Some(maxBet)
      ensures bankroll > 0.0 && BetUnits(trueCount, bankroll) as real * GetBaseBet(bankroll) <= maxBet ==>
        GetOptimalBet(trueCount, bankroll) - GetBaseBet(bankroll) < r.value
      ensures r.Some? && bankroll > 0.0 ==> r.value <= GetOptimalBet(trueCount, bankroll)
      ensures bankroll != 0.0 && trueCount < 2.0 && GetBaseBet(bankroll) <= maxBet ==> r == Some(GetBaseBet(bankroll))
      ensures r.Some? && bankroll > 0.0 && kellyMultiplier >= 0.0 && maxBet >= 0.0 ==> r.value >= 0.0
    {
      if bankroll == 0.0 then None
      else
        var optimal := GetOptimalBet(trueCount, bankroll);
        var base := GetBaseBet(bankroll);
        var rounded := BetUnits(trueCount, bankroll) as real * base;
        RoundedDown(optimal, base);
        assert trueCount < 2.0 ==> rounded == base by {
          if trueCount < 2.0 {
            OneUnit(optimal, base);
          }
        }
        Some(if rounded <= maxBet then rounded else maxBet)
    }
  }

  /** `Math.floor(x / b) * b` is, for b > 0, the largest multiple of b not
      above x. */
  lemma RoundedDown(x: real, b: real)
    requires b != 0.0
    ensures b > 0.0 ==> x - b < (x / b).Floor as real * b <= x
    ensures b > 0.0 && x >= 0.0 ==> (x / b).Floor as real * b >= 0.0
  {
    var q := x / b;
    var f := q.Floor as real;
    assert q * b == x;
    if b > 0.0 {
      assert f <= q < f + 1.0;
      MultiplyPositive(f, q, b);
      MultiplyPositive(q, f + 1.0, b);
      assert (f + 1.0) * b == f * b + b;
      if x >= 0.0 {
        assert q >= 0.0 by {
          if q < 0.0 {
            MultiplyPositive(q, 0.0, b);
          }
        }
        MultiplyPositive(0.0, f, b);
      }
    }
  }

  lemma OneUnit(x: real, b: real)
    requires b != 0.0 && x == b
    ensures (x / b).Floor as real * b == b
  {
    assert x / b == 1.0;
  }

  lemma MultiplyPositive(a: real, c: real, b: real)
    requires b > 0.0 && a <= c
    ensures a * b <= c * b
    ensures a < c ==> a * b < c * b
  {
    assert c * b - a * b == (c - a) * b;
  }

  /** The test's figures: base bet 20 on 12000, edges 0, 0.5 and 1.5 at true
      counts 1, 2 and 4, and the base bet itself below a true count of 2. */
  lemma WorkedBets(kelly: real)
    ensures BetStrategy(1000.0, kelly).GetBaseBet(12000.0) == 20.0
    ensures BetStrategy(1000.0, kelly).GetEdge(1.0) == 0.0
    ensures BetStrategy(1000.0, kelly).GetEdge(2.0) == 0.5
    ensures BetStrategy(1000.0, kelly).GetEdge(4.0) == 1.5
    ensures BetStrategy(1000.0, kelly).GetBet(1.0, 12000.0) == Some(20.0)
  {
  }
}
