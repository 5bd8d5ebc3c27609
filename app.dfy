/** The application state of the tracker — the bet list, the transaction list
    and the bankroll — and the handlers that change it. The bankroll is an
    accumulator: every handler except `SetBankroll` moves it by exactly what it
    adds to or takes from the transactions' signed amounts and the bets'
    profits, so `Residual` (bankroll minus both sums) never moves. */
module App {
  import opened Common
  import opened Types
  import opened Sorting
  import opened Resolver

  function TransactionDate(t: Transaction): real
  {
    t.date as real
  }

  /** `list.sort((a, b) => date(b) - date(a))`: newest transaction first. */
  function SortTransactions(ts: seq<Transaction>): (r: seq<Transaction>)
    ensures Ordered(r, TransactionDate, true)
    ensures multiset(r) == multiset(ts)
  {
    SortBy(ts, TransactionDate, true)
  }


  // ---------------------------------------------------------------------------
  // What replacing one record by id does to the lists the handlers keep

  /** Replacing the transaction with `updated.id` and re-sorting keeps the ids
      unique and the length, and moves the signed sum by the difference. */
  lemma ReplaceTransaction(ts: seq<Transaction>, updated: Transaction)
    requires UniqueBy(ts, TransactionId) && HasKey(ts, TransactionId, updated.id)
    ensures var r := SortTransactions(ReplaceKey(ts, TransactionId, updated.id, updated));
      && UniqueBy(r, TransactionId)
      && |r| == |ts|
      && SignedSum(r) == SignedSum(ts) - Signed(Find(ts, TransactionId, updated.id).value) + Signed(updated)
  {
    var i := FindIndex(ts, TransactionId, updated.id).value;
    ReplaceKeyUnique(ts, TransactionId, i, updated);
    var replaced := ts[i := updated];
    UniqueByUpdate(ts, TransactionId, i, updated);
    UniqueByPermutation(replaced, SortTransactions(replaced), TransactionId);
    SumByUpdate(ts, i, updated, Signed);
    SumByPermutation(replaced, SortTransactions(replaced), Signed);
    assert ts[i] == Find(ts, TransactionId, updated.id).value by {
      assert Find(ts, TransactionId, updated.id).value in ts;
    }
  }

  /** Replacing the bet with id `betId` by `b` (which keeps that id) keeps the
      ids unique, moves the profit sum by the difference, and keeps every bet
      consistent when `b` is. */
  lemma ReplaceBet(bs: seq<Bet>, betId: string, b: Bet)
    requires UniqueBy(bs, BetId) && HasKey(bs, BetId, betId) && b.id == betId
    ensures var r := ReplaceKey(bs, BetId, betId, b);
      && UniqueBy(r, BetId)
      && ProfitSum(r) == ProfitSum(bs) - Find(bs, BetId, betId).value.profit + b.profit
      && (Consistent(b) && AllSettledConsistently(bs) ==> AllSettledConsistently(r))
  {
    var i := FindIndex(bs, BetId, betId).value;
    ReplaceKeyUnique(bs, BetId, i, b);
    UniqueByUpdate(bs, BetId, i, b);
    SumByUpdate(bs, i, b, Profit);
    assert bs[i] == Find(bs, BetId, betId).value by {
      assert Find(bs, BetId, betId).value in bs;
    }
  }

  /** Dropping the transaction with the id of `t` keeps the ids unique,
      shortens the list by one and takes the stored record's signed amount off
      the sum; the stored record is `t` itself when `t` is in the list. */
  lemma RemoveTransaction(ts: seq<Transaction>, t: Transaction)
    requires UniqueBy(ts, TransactionId) && HasKey(ts, TransactionId, t.id)
    ensures var r := RemoveKey(ts, TransactionId, t.id);
      && UniqueBy(r, TransactionId)
      && |r| == |ts| - 1
      && SignedSum(r) == SignedSum(ts) - Signed(Find(ts, TransactionId, t.id).value)
      && (t in ts ==> Find(ts, TransactionId, t.id).value == t)
  {
    var i := FindIndex(ts, TransactionId, t.id).value;
    RemoveKeyUnique(ts, TransactionId, i);
    UniqueByRemove(ts, TransactionId, i);
    SumBySplit(ts, i, Signed);
    if t in ts {
      var j :| 0 <= j < |ts| && ts[j] == t;
      assert j == i;
    }
  }

  /** Dropping the bet with id `betId` keeps the ids unique, shortens the list
      by one, takes that bet's profit off the sum and keeps the rest
      consistent; a consistent open or void bet had no profit to take. */
  lemma RemoveBet(bs: seq<Bet>, betId: string)
    requires UniqueBy(bs, BetId) && HasKey(bs, BetId, betId)
    ensures var r := RemoveKey(bs, BetId, betId);
      && UniqueBy(r, BetId)
      && |r| == |bs| - 1
      && ProfitSum(r) == ProfitSum(bs) - Find(bs, BetId, betId).value.profit
      && (AllSettledConsistently(bs) ==> AllSettledConsistently(r))
    ensures AllSettledConsistently(bs) && Find(bs, BetId, betId).value.status in {BetStatus.Pending, BetStatus.Void}
      ==> Find(bs, BetId, betId).value.profit == 0.0
  {
    var i := FindIndex(bs, BetId, betId).value;
    RemoveKeyUnique(bs, BetId, i);
    UniqueByRemove(bs, BetId, i);
    SumBySplit(bs, i, Profit);
    ResolvePrecedence(bs[i].selections, bs[i].stake);
  }

  /** Settling a selection of the bet with id `betId` and storing the result
      in its place keeps the ids unique, moves the profit sum by the change in
      that bet's profit and keeps every bet consistent. */
  lemma SettleInList(bs: seq<Bet>, betId: string, selectionId: string, st: SelectionStatus, settled: Bet)
    requires UniqueBy(bs, BetId) && HasKey(bs, BetId, betId)
    requires settled == Settle(Find(bs, BetId, betId).value, selectionId, st)
    ensures var r := ReplaceKey(bs, BetId, betId, settled);
      && UniqueBy(r, BetId)
      && ProfitSum(r) == ProfitSum(bs) - Find(bs, BetId, betId).value.profit + settled.profit
      && (AllSettledConsistently(bs) ==> AllSettledConsistently(r))
  {
    assert Consistent(settled);
    ReplaceBet(bs, betId, settled);
  }

  /** Re-setting a selection to the status it has leaves a consistent bet, and
      so the whole list, as it is. */
  lemma ResettleInPlace(bs: seq<Bet>, betId: string, selectionId: string, st: SelectionStatus)
    requires UniqueBy(bs, BetId) && HasKey(bs, BetId, betId)
    requires AllSettledConsistently(bs)
    requires HasStatus(Find(bs, BetId, betId).value.selections, selectionId, st)
    ensures var b := Find(bs, BetId, betId).value;
      && Recalculate(b.(selections := SetSelectionStatus(b.selections, selectionId, st))) == b
      && ReplaceKey(bs, BetId, betId, b) == bs
  {
    var b := Find(bs, BetId, betId).value;
    assert b in bs;
    ResettleSameStatus(b, selectionId, st);
    ReplaceBetBySelf(bs, betId);
  }

  /** Storing a bet in its own place changes nothing. */
  lemma ReplaceBetBySelf(bs: seq<Bet>, betId: string)
    requires UniqueBy(bs, BetId) && HasKey(bs, BetId, betId)
    ensures ReplaceKey(bs, BetId, betId, Find(bs, BetId, betId).value) == bs
  {
    var i := FindIndex(bs, BetId, betId).value;
    assert bs[i] == Find(bs, BetId, betId).value by {
      assert Find(bs, BetId, betId).value in bs;
    }
    ReplaceKeyUnique(bs, BetId, i, bs[i]);
    assert bs[i := bs[i]] == bs;
  }

  /** The updater handed to `setBankroll` by `handleUpdateTransaction`: undo
      the stored transaction, then apply the edited one. */
  method ReverseThenApply(prevBankroll: real, previous: Transaction, updated: Transaction) returns (newBankroll: real)
    ensures newBankroll == prevBankroll - Signed(previous) + Signed(updated)
    ensures previous.kind == updated.kind && previous.amount == updated.amount ==> newBankroll == prevBankroll
  {
    newBankroll := prevBankroll;
    // Reverse the stored transaction
    if previous.kind == Deposit {
      newBankroll := newBankroll - previous.amount;
    } else {
      newBankroll := newBankroll + previous.amount;
    }
    // Apply the new one
    if updated.kind == Deposit {
      newBankroll := newBankroll + updated.amount;
    } else {
      newBankroll := newBankroll - updated.amount;
    }
  }

  class AppState {
    var bets: seq<Bet>
    var transactions: seq<Transaction>
    var bankroll: real

    /** Ids are unique within each list (they come from `crypto.randomUUID`). */
    ghost predicate Valid()
      reads this
    {
      UniqueBy(bets, BetId) && UniqueBy(transactions, TransactionId)
    }

    /** What the bankroll holds beyond the transactions and the bet profits:
        the last manually set starting value. */
    ghost function Residual(): real
      reads this
    {
      bankroll - SignedSum(transactions) - ProfitSum(bets)
    }

    /** The state of a first start: nothing stored yet. */
    constructor ()
      ensures bets == [] && transactions == [] && bankroll == 0.0
      ensures Valid() && AllSettledConsistently(bets) && Residual() == 0.0
    {
      bets, transactions, bankroll := [], [], 0.0;
    }

    /** `handleAddBet`: the bet gets a fresh id and goes to the front; the
        bankroll is not touched. */
    method AddBet(newBet: Bet, freshId: string)
      requires Valid() && !HasKey(bets, BetId, freshId)
      modifies this
      ensures Valid()
      ensures bets == [newBet.(id := freshId)] + old(bets)
      ensures transactions == old(transactions) && bankroll == old(bankroll)
      ensures Residual() == old(Residual()) - newBet.profit
      ensures AllSettledConsistently(old(bets)) && Consistent(newBet) ==> AllSettledConsistently(bets)
    {
      var betWithId := newBet.(id := freshId);
      UniqueByPrepend(betWithId, bets, BetId);
      SumByConcat([betWithId], bets, Profit);
      assert SumBy([betWithId], Profit) == betWithId.profit by {
        assert [betWithId][..0] == [];
      }
      bets := [betWithId] + bets;
    }

    /** `handleAddTransaction`: the transaction gets a fresh id, goes to the
        front, the list is re-sorted newest first, and the bankroll moves by
        +amount for a deposit and -amount for a withdrawal. */
    method AddTransaction(newTransaction: Transaction, freshId: string)
      requires Valid() && !HasKey(transactions, TransactionId, freshId)
      requires newTransaction.amount > 0.0
      modifies this
      ensures Valid()
      ensures transactions == SortTransactions([newTransaction.(id := freshId)] + old(transactions))
      ensures |transactions| == |old(transactions)| + 1
      ensures bankroll == old(bankroll) + Signed(newTransaction)
      ensures bets == old(bets)
      ensures Residual() == old(Residual())
    {
      var withId := newTransaction.(id := freshId);
      var grown := [withId] + transactions;
      UniqueByPrepend(withId, transactions, TransactionId);
      UniqueByPermutation(grown, SortTransactions(grown), TransactionId);
      SumByPermutation(grown, SortTransactions(grown), Signed);
      SumByConcat([withId], transactions, Signed);
      assert SumBy([withId], Signed) == Signed(withId) by {
        assert [withId][..0] == [];
      }
      assert |multiset(SortTransactions(grown))| == |multiset(grown)|;
      transactions := SortTransactions(grown);
      if newTransaction.kind == Deposit {
        bankroll := bankroll + newTransaction.amount;
      } else {
        bankroll := bankroll - newTransaction.amount;
      }
    }

    /** `handleUpdateTransaction`: reverse the effect of the stored record with
        that id, apply the effect of the new one, replace it and re-sort. An
        unknown id changes nothing. */
    method UpdateTransaction(updated: Transaction)
      requires Valid()
      requires updated.amount > 0.0
      modifies this
      ensures Valid()
      ensures var found := Find(old(transactions), TransactionId, updated.id);
        && (found.None? ==> transactions == old(transactions) && bankroll == old(bankroll))
        && (found.Some? ==>
              && bankroll == old(bankroll) - Signed(found.value) + Signed(updated)
              && transactions == SortTransactions(ReplaceKey(old(transactions), TransactionId, updated.id, updated))
              && |transactions| == |old(transactions)|)
      ensures bets == old(bets)
      ensures Residual() == old(Residual())
    {
      var oldTransaction := Find(transactions, TransactionId, updated.id);
      if oldTransaction.None? {
        return;
      }
      var previous := oldTransaction.value;
      bankroll := ReverseThenApply(bankroll, previous, updated);

      var sorted := SortTransactions(ReplaceKey(transactions, TransactionId, updated.id, updated));
      ReplaceTransaction(transactions, updated);
      assert |sorted| == |transactions| && UniqueBy(sorted, TransactionId);
      assert SignedSum(sorted) == SignedSum(transactions) - Signed(previous) + Signed(updated);
      transactions := sorted;
    }

    /** `handleDeleteTransaction`: when some stored transaction has the id of
        `toDelete`, the bankroll reverses the effect of `toDelete` itself (the
        record handed in, not the stored one) and every entry with that id
        goes; otherwise nothing changes (the source only logs a warning). */
    method DeleteTransaction(toDelete: Transaction)
      requires Valid()
      modifies this
      ensures Valid()
      ensures !HasKey(old(transactions), TransactionId, toDelete.id) ==>
        transactions == old(transactions) && bankroll == old(bankroll)
      ensures HasKey(old(transactions), TransactionId, toDelete.id) ==>
        && bankroll == old(bankroll) - Signed(toDelete)
        && transactions == RemoveKey(old(transactions), TransactionId, toDelete.id)
        && |transactions| == |old(transactions)| - 1
        && Residual() == old(Residual()) + Signed(Find(old(transactions), TransactionId, toDelete.id).value) - Signed(toDelete)
      ensures toDelete in old(transactions) ==> Residual() == old(Residual())
      ensures bets == old(bets)
    {
      var transactionExists := HasKey(transactions, TransactionId, toDelete.id);
      if !transactionExists {
        return;
      }
      var newBankroll := bankroll;
      if toDelete.kind == Deposit {
        newBankroll := newBankroll - toDelete.amount;
      } else {
        newBankroll := newBankroll + toDelete.amount;
      }
      bankroll := newBankroll;

      RemoveTransaction(transactions, toDelete);
      transactions := RemoveKey(transactions, TransactionId, toDelete.id);
    }

    /** `handleSetBankroll`: a manual override that bypasses the ledger. */
    method SetBankroll(amount: real)
      requires Valid()
      requires amount >= 0.0
      modifies this
      ensures Valid()
      ensures bankroll == amount
      ensures bets == old(bets) && transactions == old(transactions)
      ensures Residual() == old(Residual()) - old(bankroll) + amount
    {
      bankroll := amount;
    }

    /** `handleUpdateSelectionStatus`: set the status of the selections with
        `selectionId` on the first bet with `betId`, re-resolve that bet, move
        the bankroll by the change in its profit, and store the bet in place
        of every bet with that id. An unknown bet id changes nothing. */
    method UpdateSelectionStatus(betId: string, selectionId: string, newStatus: SelectionStatus)
      requires Valid()
      modifies this
      ensures Valid()
      ensures var found := Find(old(bets), BetId, betId);
        && (found.None? ==> bets == old(bets) && bankroll == old(bankroll))
        && (found.Some? ==>
              var settled := Recalculate(found.value.(selections := SetSelectionStatus(found.value.selections, selectionId, newStatus)));
              && bets == ReplaceKey(old(bets), BetId, betId, settled)
              && bankroll == old(bankroll) + (settled.profit - found.value.profit))
      ensures transactions == old(transactions)
      ensures bankroll - ProfitSum(bets) == old(bankroll - ProfitSum(bets))
      ensures AllSettledConsistently(old(bets)) ==> AllSettledConsistently(bets)
    {
      var oldBet := Find(bets, BetId, betId);
      if oldBet.None? {
        return;
      }
      var previous := oldBet.value;
      var oldProfit := previous.profit;
      var updatedSelections := SetSelectionStatus(previous.selections, selectionId, newStatus);
      var updatedBetWithSelections := previous.(selections := updatedSelections);
      var finalUpdatedBet := RecalculateBetStatusAndProfit(updatedBetWithSelections);
      var newProfit := finalUpdatedBet.profit;
      var profitDelta := newProfit - oldProfit;
      if profitDelta != 0.0 {
        bankroll := bankroll + profitDelta;
      }
      SettleInList(bets, betId, selectionId, newStatus, finalUpdatedBet);
      bets := ReplaceKey(bets, BetId, betId, finalUpdatedBet);
    }

    /** `handleDeleteBet`: take the first bet with that id off the bankroll
        (when its profit is not zero) and drop every bet with that id. */
    method DeleteBet(betId: string)
      requires Valid()
      modifies this
      ensures Valid()
      ensures var found := Find(old(bets), BetId, betId);
        && bankroll == old(bankroll) - (if found.Some? then found.value.profit else 0.0)
        && bets == RemoveKey(old(bets), BetId, betId)
        && (found.Some? ==> |bets| == |old(bets)| - 1)
      ensures var found := Find(old(bets), BetId, betId);
        found.Some? && found.value.status in {BetStatus.Pending, BetStatus.Void} && AllSettledConsistently(old(bets))
        ==> bankroll == old(bankroll)
      ensures transactions == old(transactions)
      ensures Residual() == old(Residual())
      ensures AllSettledConsistently(old(bets)) ==> AllSettledConsistently(bets)
    {
      var betToDelete := Find(bets, BetId, betId);
      if betToDelete.Some? && betToDelete.value.profit != 0.0 {
        bankroll := bankroll - betToDelete.value.profit;
      }
      if betToDelete.Some? {
        RemoveBet(bets, betId);
      }
      bets := RemoveKey(bets, BetId, betId);
    }
  }
}
