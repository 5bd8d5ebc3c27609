/** Settlement of a bet from the statuses of its selections
    (`recalculateBetStatusAndProfit`): a lost leg loses the ticket, an open leg
    keeps it open, an all-void ticket is void, and otherwise the ticket wins at
    the product of the odds of its won legs, void legs counting as odds 1. */
module Resolver {
  import opened Common
  import opened Types

  /** The pair of derived fields the resolver owns on a bet. */
  datatype Resolution = Resolution(status: BetStatus, profit: real)

  /** `selections.some(s => s.status === st)`. */
  predicate AnyIs(sels: seq<Selection>, st: SelectionStatus)
  {
    exists i :: 0 <= i < |sels| && sels[i].status == st
  }

  /** `selections.every(s => s.status === st)`. */
  predicate AllAre(sels: seq<Selection>, st: SelectionStatus)
  {
    forall i :: 0 <= i < |sels| ==> sels[i].status == st
  }

  /** The factor a selection contributes to the effective odds. */
  function WonFactor(s: Selection): real
  {
    if s.status == SelectionStatus.Won then s.odds else 1.0
  }

  /** Product of the odds of the won selections (1 when there are none). */
  function EffectiveOdds(sels: seq<Selection>): real
  {
    ProductBy(sels, WonFactor)
  }

  function Resolve(sels: seq<Selection>, stake: real): Resolution
  {
    if AnyIs(sels, SelectionStatus.Lost) then Resolution(BetStatus.Lost, -stake)
    else if AnyIs(sels, SelectionStatus.Pending) then Resolution(BetStatus.Pending, 0.0)
    else if AllAre(sels, SelectionStatus.Void) then Resolution(BetStatus.Void, 0.0)
    else Resolution(BetStatus.Won, stake * EffectiveOdds(sels) - stake)
  }

  /** The bet with its status and profit re-derived from its selections; every
      other field is kept. */
  function Recalculate(bet: Bet): Bet
  {
    var r := Resolve(bet.selections, bet.stake);
    bet.(status := r.status, profit := r.profit)
  }

  /** `bet` with the selections carrying `selectionId` set to `st`, then
      re-resolved: what a status click produces. */
  function Settle(bet: Bet, selectionId: string, st: SelectionStatus): Bet
  {
    Recalculate(bet.(selections := SetSelectionStatus(bet.selections, selectionId, st)))
  }

  /** A bet whose cached status and profit are what the resolver gives. */
  ghost predicate Consistent(bet: Bet)
  {
    Resolve(bet.selections, bet.stake) == Resolution(bet.status, bet.profit)
  }

  /** Every bet of a list carries the status and profit the resolver gives it. */
  ghost predicate AllSettledConsistently(bs: seq<Bet>)
  {
    forall i :: 0 <= i < |bs| ==> Consistent(bs[i])
  }

  /** The source's resolver, with its `forEach` loop over the won odds. */
  method RecalculateBetStatusAndProfit(bet: Bet) returns (r: Bet)
    ensures r == Recalculate(bet)
    ensures Consistent(r)
  {
    var sels, stake := bet.selections, bet.stake;
    if AnyIs(sels, SelectionStatus.Lost) {
      assert Resolve(sels, stake) == Resolution(BetStatus.Lost, -stake);
      return bet.(status := BetStatus.Lost, profit := -stake);
    }
    if AnyIs(sels, SelectionStatus.Pending) {
      assert Resolve(sels, stake) == Resolution(BetStatus.Pending, 0.0);
      return bet.(status := BetStatus.Pending, profit := 0.0);
    }
    if AllAre(sels, SelectionStatus.Void) {
      assert Resolve(sels, stake) == Resolution(BetStatus.Void, 0.0);
      return bet.(status := BetStatus.Void, profit := 0.0);
    }
    var effectiveOdds := MultiplyWonOdds(sels);
    WonRung(sels, stake, effectiveOdds);
    r := bet.(status := BetStatus.Won, profit := stake * effectiveOdds - stake);
  }

  /** The resolver's `forEach` over the selections, multiplying in the odds of
      each won one. */
  method MultiplyWonOdds(sels: seq<Selection>) returns (effectiveOdds: real)
    ensures effectiveOdds == EffectiveOdds(sels)
  {
    effectiveOdds := 1.0;
    for i := 0 to |sels|
      invariant effectiveOdds == ProductBy(sels[..i], WonFactor)
    {
      assert sels[..i + 1][..i] == sels[..i];
      assert ProductBy(sels[..i + 1], WonFactor) == ProductBy(sels[..i], WonFactor) * WonFactor(sels[i]);
      if sels[i].status == SelectionStatus.Won {
        effectiveOdds := effectiveOdds * sels[i].odds;
      }
    }
    assert sels[..|sels|] == sels;
  }

  // ---------------------------------------------------------------------------
  // Properties of the resolver

  /** The precedence ladder, each rung stated as an if-and-only-if over the
      statuses present. */
  lemma ResolvePrecedence(sels: seq<Selection>, stake: real)
    ensures Resolve(sels, stake).status == BetStatus.Lost <==> AnyIs(sels, SelectionStatus.Lost)
    ensures Resolve(sels, stake).status == BetStatus.Pending
        <==> !AnyIs(sels, SelectionStatus.Lost) && AnyIs(sels, SelectionStatus.Pending)
    ensures Resolve(sels, stake).status == BetStatus.Void
        <==> !AnyIs(sels, SelectionStatus.Lost) && !AnyIs(sels, SelectionStatus.Pending)
             && AllAre(sels, SelectionStatus.Void)
    ensures Resolve(sels, stake).status == BetStatus.Won
        <==> AnyIs(sels, SelectionStatus.Won)
             && !AnyIs(sels, SelectionStatus.Lost) && !AnyIs(sels, SelectionStatus.Pending)
    ensures Resolve(sels, stake).status == BetStatus.Lost ==> Resolve(sels, stake).profit == -stake
    ensures Resolve(sels, stake).status in {BetStatus.Pending, BetStatus.Void} ==> Resolve(sels, stake).profit == 0.0
  {
    if !AnyIs(sels, SelectionStatus.Lost) && !AnyIs(sels, SelectionStatus.Pending) {
      if !AllAre(sels, SelectionStatus.Void) {
        var i :| 0 <= i < |sels| && sels[i].status != SelectionStatus.Void;
        assert sels[i].status == SelectionStatus.Won;
      }
    }
  }

  /** An empty selection list is vacuously all-void. */
  lemma EmptyResolvesVoid(stake: real)
    ensures Resolve([], stake) == Resolution(BetStatus.Void, 0.0)
  {
  }

  /** Resolution depends only on the multiset of selections, not their order. */
  lemma ResolveOrderIndependent(sels: seq<Selection>, other: seq<Selection>, stake: real)
    requires multiset(sels) == multiset(other)
    ensures Resolve(sels, stake) == Resolve(other, stake)
  {
    forall st: SelectionStatus ensures AnyIs(sels, st) <==> AnyIs(other, st) {
      SameStatusesPresent(sels, other, st);
      SameStatusesPresent(other, sels, st);
    }
    forall st: SelectionStatus ensures AllAre(sels, st) <==> AllAre(other, st) {
      SameStatusesPresent(sels, other, st);
      SameStatusesPresent(other, sels, st);
    }
    ProductByPermutation(sels, other, WonFactor);
  }

  lemma SameStatusesPresent(sels: seq<Selection>, other: seq<Selection>, st: SelectionStatus)
    requires multiset(sels) == multiset(other)
    ensures AnyIs(sels, st) ==> AnyIs(other, st)
    ensures AllAre(other, st) ==> AllAre(sels, st)
  {
    forall i | 0 <= i < |sels| ensures exists j :: 0 <= j < |other| && other[j] == sels[i] {
      assert sels[i] in multiset(other);
    }
  }

  /** Only the statuses and the odds of won selections matter: the odds of
      void, lost and pending selections are ignored. */
  lemma OnlyWonOddsMatter(sels: seq<Selection>, other: seq<Selection>, stake: real)
    requires |sels| == |other|
    requires forall i :: 0 <= i < |sels| ==> sels[i].status == other[i].status
    requires forall i :: 0 <= i < |sels| && sels[i].status == SelectionStatus.Won ==> sels[i].odds == other[i].odds
    ensures Resolve(sels, stake) == Resolve(other, stake)
  {
    SameStatuses(sels, other, SelectionStatus.Lost);
    SameStatuses(sels, other, SelectionStatus.Pending);
    SameStatuses(sels, other, SelectionStatus.Void);
    SameWonOdds(sels, other);
  }

  /** Lists agreeing on statuses and on the odds of won selections have the
      same effective odds. */
  lemma SameWonOdds(sels: seq<Selection>, other: seq<Selection>)
    requires |sels| == |other|
    requires forall i :: 0 <= i < |sels| ==> sels[i].status == other[i].status
    requires forall i :: 0 <= i < |sels| && sels[i].status == SelectionStatus.Won ==> sels[i].odds == other[i].odds
    ensures EffectiveOdds(sels) == EffectiveOdds(other)
  {
    forall i | 0 <= i < |sels| ensures WonFactor(sels[i]) == WonFactor(other[i]) {
    }
    ProductByPointwise(sels, WonFactor, other, WonFactor);
  }

  /** Two lists with the same statuses, position by position, agree on which
      statuses occur and which fill the list. */
  lemma SameStatuses(sels: seq<Selection>, other: seq<Selection>, st: SelectionStatus)
    requires |sels| == |other|
    requires forall i :: 0 <= i < |sels| ==> sels[i].status == other[i].status
    ensures AnyIs(sels, st) == AnyIs(other, st) && AllAre(sels, st) == AllAre(other, st)
  {
    if AnyIs(sels, st) {
      var i :| 0 <= i < |sels| && sels[i].status == st;
      assert other[i].status == st;
    }
    if AnyIs(other, st) {
      var i :| 0 <= i < |other| && other[i].status == st;
      assert sels[i].status == st;
    }
  }

  /** A ticket with every leg won pays the product of all its odds. */
  lemma AllWonProfit(sels: seq<Selection>, stake: real)
    requires |sels| > 0 && AllAre(sels, SelectionStatus.Won)
    ensures Resolve(sels, stake) == Resolution(BetStatus.Won, stake * ProductBy(sels, Odds) - stake)
  {
    NoneOtherThanWon(sels);
    AllWonOdds(sels);
    WonAtAllOdds(sels, stake);
  }

  /** The won rung, once the effective odds are known to be the product of
      all the odds. */
  lemma WonAtAllOdds(sels: seq<Selection>, stake: real)
    requires !AnyIs(sels, SelectionStatus.Lost) && !AnyIs(sels, SelectionStatus.Pending)
    requires !AllAre(sels, SelectionStatus.Void)
    requires EffectiveOdds(sels) == ProductBy(sels, Odds)
    ensures Resolve(sels, stake) == Resolution(BetStatus.Won, stake * ProductBy(sels, Odds) - stake)
  {
    WonRung(sels, stake, ProductBy(sels, Odds));
  }

  /** In a non-empty ticket with every leg won, no leg is lost or open and
      not every leg is void. */
  lemma NoneOtherThanWon(sels: seq<Selection>)
    requires |sels| > 0 && AllAre(sels, SelectionStatus.Won)
    ensures !AnyIs(sels, SelectionStatus.Lost) && !AnyIs(sels, SelectionStatus.Pending)
    ensures !AllAre(sels, SelectionStatus.Void)
  {
    assert sels[0].status == SelectionStatus.Won;
  }

  /** Below the lost, open and all-void rungs, the ticket wins at its
      effective odds. */
  lemma WonRung(sels: seq<Selection>, stake: real, odds: real)
    requires !AnyIs(sels, SelectionStatus.Lost) && !AnyIs(sels, SelectionStatus.Pending)
    requires !AllAre(sels, SelectionStatus.Void)
    requires EffectiveOdds(sels) == odds
    ensures Resolve(sels, stake) == Resolution(BetStatus.Won, stake * odds - stake)
  {
  }

  /** When every leg is won, the effective odds are the product of all odds. */
  lemma AllWonOdds(sels: seq<Selection>)
    requires AllAre(sels, SelectionStatus.Won)
    ensures EffectiveOdds(sels) == ProductBy(sels, Odds)
  {
    forall i | 0 <= i < |sels| ensures WonFactor(sels[i]) == Odds(sels[i]) {
      assert sels[i].status == SelectionStatus.Won;
    }
    ProductByPointwise(sels, WonFactor, sels, Odds);
  }

  /** With a non-negative stake and odds of at least 1, a bet never loses more
      than its stake and a won bet never loses money. */
  lemma ProfitBounds(sels: seq<Selection>, stake: real)
    requires stake >= 0.0
    requires forall i :: 0 <= i < |sels| ==> sels[i].odds >= 1.0
    ensures -stake <= Resolve(sels, stake).profit
    ensures Resolve(sels, stake).status == BetStatus.Won ==> Resolve(sels, stake).profit >= 0.0
  {
    ProductByAtLeastOne(sels, WonFactor);
    var p := EffectiveOdds(sels);
    assert stake * p >= stake * 1.0 by {
      assert stake * (p - 1.0) >= 0.0;
    }
  }

  /** A freshly placed ticket (all legs open) is open with no profit. */
  lemma OpenTicketIsPending(sels: seq<Selection>, stake: real)
    requires |sels| > 0 && AllAre(sels, SelectionStatus.Pending)
    ensures Resolve(sels, stake) == Resolution(BetStatus.Pending, 0.0)
  {
    assert sels[0].status == SelectionStatus.Pending;
  }

  // ---------------------------------------------------------------------------
  // Settling one selection

  /** `selections.map(s => s.id === selectionId ? {...s, status} : s)`. */
  function SetSelectionStatus(sels: seq<Selection>, selectionId: string, st: SelectionStatus): (r: seq<Selection>)
    ensures |r| == |sels|
    ensures forall i :: 0 <= i < |sels| ==>
      r[i] == if sels[i].id == selectionId then sels[i].(status := st) else sels[i]
  {
    if sels == [] then []
    else
      [if sels[0].id == selectionId then sels[0].(status := st) else sels[0]]
        + SetSelectionStatus(sels[1..], selectionId, st)
  }

  /** Every selection with that id already has status `st`. */
  predicate HasStatus(sels: seq<Selection>, selectionId: string, st: SelectionStatus)
  {
    forall i :: 0 <= i < |sels| && sels[i].id == selectionId ==> sels[i].status == st
  }

  /** Re-setting the status a selection already has changes nothing, so a
      consistent bet keeps its status and profit. */
  lemma ResettleSameStatus(bet: Bet, selectionId: string, st: SelectionStatus)
    requires Consistent(bet)
    requires HasStatus(bet.selections, selectionId, st)
    ensures SetSelectionStatus(bet.selections, selectionId, st) == bet.selections
    ensures Recalculate(bet.(selections := SetSelectionStatus(bet.selections, selectionId, st))) == bet
  {
    var r := SetSelectionStatus(bet.selections, selectionId, st);
    assert r == bet.selections;
  }
}
