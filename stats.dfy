/** The headline figures of the tracker (`stats` in App.tsx): money staked and
    won, return on investment, hit rate, and what went in and out of the
    bankroll through deposits and withdrawals. */
module Stats {
  import opened Common
  import opened Types
  import opened Resolver

  datatype Stats = Stats(
    totalStaked: real,
    totalProfit: real,
    roi: real,
    winRate: real,
    totalBets: nat,
    totalDeposited: real,
    totalWithdrawn: real,
    netBalance: real,
    bankroll: real)

  /** Won or lost: the bets the statistics and the charts count as settled
      (void bets are not among them). */
  predicate IsDecided(b: Bet)
  {
    b.status == BetStatus.Won || b.status == BetStatus.Lost
  }

  predicate IsWonBet(b: Bet)
  {
    b.status == BetStatus.Won
  }

  /** The statistics compare the type against its string encoding. */
  predicate IsDeposit(t: Transaction)
  {
    TransactionTypeCode(t.kind) == "DEPOSIT"
  }

  predicate IsWithdrawal(t: Transaction)
  {
    TransactionTypeCode(t.kind) == "WITHDRAWAL"
  }

  /** `bets.filter(b => b.status === WON || b.status === LOST)`. */
  function DecidedBets(bs: seq<Bet>): (r: seq<Bet>)
    ensures forall b :: b in r <==> b in bs && (b.status == BetStatus.Won || b.status == BetStatus.Lost)
    ensures forall i :: 0 <= i < |r| ==> r[i].status != BetStatus.Pending && r[i].status != BetStatus.Void
  {
    FilterMembers(bs, IsDecided);
    Filter(bs, IsDecided)
  }

  /** `x / total * 100`, or 0 when there is nothing to divide by. */
  function Percentage(x: real, total: real): real
  {
    if total > 0.0 then (x / total) * 100.0 else 0.0
  }

  function ComputeStats(bets: seq<Bet>, transactions: seq<Transaction>, bankroll: real): (r: Stats)
    ensures r.totalBets == |bets| && r.bankroll == bankroll
    ensures 0.0 <= r.winRate <= 100.0
    ensures r.totalStaked > 0.0 ==> (r.roi > 0.0 <==> r.totalProfit > 0.0) && (r.roi < 0.0 <==> r.totalProfit < 0.0)
    ensures r.totalStaked <= 0.0 ==> r.roi == 0.0
    ensures r.totalStaked == SumBy(bets, Stake) && r.totalProfit == ProfitSum(bets)
    ensures r.roi == Percentage(r.totalProfit, r.totalStaked)
    ensures r.winRate == Percentage(|Filter(DecidedBets(bets), IsWonBet)| as real, |DecidedBets(bets)| as real)
    ensures r.totalDeposited == SumBy(Filter(transactions, IsDeposit), Amount)
    ensures r.totalWithdrawn == SumBy(Filter(transactions, IsWithdrawal), Amount)
    ensures r.netBalance == r.totalWithdrawn - r.totalDeposited
  {
    var totalStaked := SumBy(bets, Stake);
    var totalProfit := SumBy(bets, Profit);
    var settled := DecidedBets(bets);
    var won := Filter(settled, IsWonBet);
    var totalDeposited := SumBy(Filter(transactions, IsDeposit), Amount);
    var totalWithdrawn := SumBy(Filter(transactions, IsWithdrawal), Amount);
    RatioSign(totalProfit, totalStaked);
    RatioAtMostOne(|won| as real, |settled| as real);
    Stats(
      totalStaked,
      totalProfit,
      Percentage(totalProfit, totalStaked),
      Percentage(|won| as real, |settled| as real),
      |bets|,
      totalDeposited,
      totalWithdrawn,
      totalWithdrawn - totalDeposited,
      bankroll)
  }

  lemma RatioSign(x: real, total: real)
    ensures total > 0.0 ==> (x / total > 0.0 <==> x > 0.0) && (x / total < 0.0 <==> x < 0.0)
  {
    if total > 0.0 {
      assert (x / total) * total == x;
    }
  }

  lemma RatioAtMostOne(part: real, total: real)
    ensures 0.0 <= part <= total && total > 0.0 ==> 0.0 <= part / total <= 1.0
  {
    if 0.0 <= part <= total && total > 0.0 {
      assert (part / total) * total == part;
    }
  }

  // ---------------------------------------------------------------------------
  // Properties

  /** Withdrawals minus deposits is the negated ledger sum: the net balance is
      what the transactions took out of the bankroll. */
  lemma {:induction false} NetBalanceIsNegatedLedger(ts: seq<Transaction>)
    ensures SumBy(Filter(ts, IsWithdrawal), Amount) - SumBy(Filter(ts, IsDeposit), Amount) == -SignedSum(ts)
  {
    if ts != [] {
      var init, last := ts[..|ts| - 1], ts[|ts| - 1];
      NetBalanceIsNegatedLedger(init);
      TransactionTypeCodes(last.kind);
      assert SumBy([last], Amount) == last.amount by {
        assert [last][..0] == [];
      }
      assert SumBy([], Amount) == 0.0;
      var withdrawn, deposited := Filter(init, IsWithdrawal), Filter(init, IsDeposit);
      if last.kind == Deposit {
        assert Filter(ts, IsWithdrawal) == withdrawn;
        assert Filter(ts, IsDeposit) == deposited + [last];
        SumByConcat(deposited, [last], Amount);
      } else {
        assert Filter(ts, IsWithdrawal) == withdrawn + [last];
        assert Filter(ts, IsDeposit) == deposited;
        SumByConcat(withdrawn, [last], Amount);
      }
    }
  }

  /** The hit rate is 100 exactly when some bet is won and none is lost, and 0
      exactly when no bet is won. */
  lemma WinRateExtremes(bets: seq<Bet>, ts: seq<Transaction>, bankroll: real)
    ensures ComputeStats(bets, ts, bankroll).winRate == 100.0
      <==> (exists b :: b in bets && b.status == BetStatus.Won) && (forall b :: b in bets ==> b.status != BetStatus.Lost)
    ensures ComputeStats(bets, ts, bankroll).winRate == 0.0
      <==> forall b :: b in bets ==> b.status != BetStatus.Won
  {
    var settled := DecidedBets(bets);
    var won := Filter(settled, IsWonBet);
    AllDecidedWon(bets);
    SomeDecidedWon(bets);
    PercentageExtremes(|won| as real, |settled| as real);
  }

  /** Every decided bet is won exactly when no bet is lost. */
  lemma AllDecidedWon(bets: seq<Bet>)
    ensures |Filter(DecidedBets(bets), IsWonBet)| == |DecidedBets(bets)|
      <==> forall b :: b in bets ==> b.status != BetStatus.Lost
  {
    var settled := DecidedBets(bets);
    FilterKeepsAll(settled, IsWonBet);
    assert (forall i :: 0 <= i < |settled| ==> IsWonBet(settled[i]))
      <==> forall b :: b in settled ==> IsWonBet(b);
  }

  /** Some decided bet is won exactly when some bet is won. */
  lemma SomeDecidedWon(bets: seq<Bet>)
    ensures |Filter(DecidedBets(bets), IsWonBet)| > 0 <==> exists b :: b in bets && b.status == BetStatus.Won
  {
    var settled := DecidedBets(bets);
    var won := Filter(settled, IsWonBet);
    FilterMembers(settled, IsWonBet);
    if won != [] {
      assert won[0] in won;
    }
  }

  /** A share of a total is 100 percent exactly when it is the whole of a
      positive total, and 0 exactly when it is nothing or the total is. */
  lemma PercentageExtremes(part: real, total: real)
    requires 0.0 <= part <= total
    ensures Percentage(part, total) == 100.0 <==> total > 0.0 && part == total
    ensures Percentage(part, total) == 0.0 <==> total == 0.0 || part == 0.0
  {
    if total > 0.0 {
      var q := part / total;
      assert q * total == part;
      assert Percentage(part, total) == q * 100.0;
      assert q == 1.0 <==> part == total;
      assert q == 0.0 <==> part == 0.0;
    }
  }

  /** The statistics' net balance in terms of the ledger. */
  lemma StatsNetBalance(bets: seq<Bet>, ts: seq<Transaction>, bankroll: real)
    ensures ComputeStats(bets, ts, bankroll).netBalance == -SignedSum(ts)
    ensures ComputeStats(bets, ts, bankroll).totalProfit == ProfitSum(bets)
  {
    NetBalanceIsNegatedLedger(ts);
  }

  /** The bankroll is what was set by hand, plus the deposits, minus the
      withdrawals, plus the profit of every bet, as long as the handlers have
      kept `residual` unchanged since it was set. */
  lemma BankrollDecomposition(bets: seq<Bet>, ts: seq<Transaction>, bankroll: real, residual: real)
    requires residual == bankroll - SignedSum(ts) - ProfitSum(bets)
    ensures var s := ComputeStats(bets, ts, bankroll);
      s.bankroll == residual + s.totalDeposited - s.totalWithdrawn + s.totalProfit
  {
    StatsNetBalance(bets, ts, bankroll);
  }

  /** With non-negative stakes, odds of at least 1 and every bet resolved, the
      bets never lost more than was staked on them. */
  lemma {:induction false} LossesBoundedByStakes(bets: seq<Bet>)
    requires forall i :: 0 <= i < |bets| ==> bets[i].stake >= 0.0
    requires forall i, j :: 0 <= i < |bets| && 0 <= j < |bets[i].selections| ==> bets[i].selections[j].odds >= 1.0
    requires AllSettledConsistently(bets)
    ensures SumBy(bets, Profit) >= -SumBy(bets, Stake)
  {
    if bets != [] {
      var last := bets[|bets| - 1];
      LossesBoundedByStakes(bets[..|bets| - 1]);
      ProfitBounds(last.selections, last.stake);
    }
  }
}
