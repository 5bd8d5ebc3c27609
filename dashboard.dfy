/** The derived data of the dashboard (Dashboard.tsx): the settled bets, the
    cumulative-profit chart, the profit per sport, the bankroll replayed
    backwards through every event, the short transaction list and the colour
    of the bankroll figure. Date labels are timestamps; formatting them is
    presentation. */
module Dashboard {
  import opened Common
  import opened Types
  import opened Sorting
  import opened Stats

  /** A point of a chart: its date (`None` for the "Inicio" start point
      of the profit chart) and its value. */
  datatype ChartPoint = ChartPoint(date: Option<int>, value: real)

  // ---------------------------------------------------------------------------
  // Cumulative profit

  /** The settled bets in ascending order of date and time (`sortedBets`). */
  function ChronologicalSettled(bets: seq<Bet>): (r: seq<Bet>)
    ensures Ordered(r, BetDateTime, false)
    ensures multiset(r) == multiset(DecidedBets(bets))
  {
    SortBy(DecidedBets(bets), BetDateTime, false)
  }

  /** One point per bet of `bs`, dated by the bet's day and carrying the sum of
      the profits up to and including that bet. */
  function RunningProfit(bs: seq<Bet>): (r: seq<ChartPoint>)
    ensures |r| == |bs|
    ensures forall k :: 0 <= k < |bs| ==> r[k] == ChartPoint(Some(bs[k].date), ProfitSum(bs[..k + 1]))
  {
    if bs == [] then []
    else
      var init := bs[..|bs| - 1];
      var r := RunningProfit(init) + [ChartPoint(Some(bs[|bs| - 1].date), ProfitSum(bs))];
      forall k | 0 <= k < |bs| ensures r[k] == ChartPoint(Some(bs[k].date), ProfitSum(bs[..k + 1])) {
        if k < |init| {
          assert init[..k + 1] == bs[..k + 1];
        } else {
          assert bs[..k + 1] == bs;
        }
      }
      r
  }

  /** `profitEvolutionData`: a zero start point, then one point per settled
      bet in date order, carrying the running sum of the profits so far; the
      last point is the profit of all settled bets. */
  method ProfitEvolution(bets: seq<Bet>) returns (points: seq<ChartPoint>)
    ensures points == [ChartPoint(None, 0.0)] + RunningProfit(ChronologicalSettled(bets))
    ensures |points| == |DecidedBets(bets)| + 1
    ensures points[|points| - 1].value == ProfitSum(DecidedBets(bets))
  {
    var sortedBets := SortBy(DecidedBets(bets), BetDateTime, false);
    var data := AccumulateProfit(sortedBets);
    points := [ChartPoint(None, 0.0)] + data;
    ProfitEvolutionEnds(bets);
  }

  /** The `map` of `profitEvolutionData`, whose callback adds each bet's
      profit to the running sum and yields a point carrying it. */
  method AccumulateProfit(sortedBets: seq<Bet>) returns (data: seq<ChartPoint>)
    ensures data == RunningProfit(sortedBets)
  {
    var cumulativeProfit := 0.0;
    data := [];
    for i := 0 to |sortedBets|
      invariant cumulativeProfit == ProfitSum(sortedBets[..i])
      invariant data == RunningProfit(sortedBets[..i])
    {
      RunningProfitStep(sortedBets, i);
      cumulativeProfit := cumulativeProfit + sortedBets[i].profit;
      data := data + [ChartPoint(Some(sortedBets[i].date), cumulativeProfit)];
    }
    assert sortedBets[..|sortedBets|] == sortedBets;
  }

  /** Taking one more bet adds its profit to the running sum and appends one
      point carrying that sum. */
  lemma RunningProfitStep(bs: seq<Bet>, i: nat)
    requires i < |bs|
    ensures ProfitSum(bs[..i + 1]) == ProfitSum(bs[..i]) + bs[i].profit
    ensures RunningProfit(bs[..i + 1])
      == RunningProfit(bs[..i]) + [ChartPoint(Some(bs[i].date), ProfitSum(bs[..i + 1]))]
  {
    assert bs[..i + 1][..i] == bs[..i];
  }

  /** The profit chart has one point per settled bet plus the start point, and
      its last point is the profit of all settled bets. */
  lemma ProfitEvolutionEnds(bets: seq<Bet>)
    ensures |[ChartPoint(None, 0.0)] + RunningProfit(ChronologicalSettled(bets))| == |DecidedBets(bets)| + 1
    ensures ([ChartPoint(None, 0.0)] + RunningProfit(ChronologicalSettled(bets)))[|DecidedBets(bets)|].value
      == ProfitSum(DecidedBets(bets))
  {
    var sorted := ChronologicalSettled(bets);
    assert |sorted| == |DecidedBets(bets)| by {
      assert |multiset(sorted)| == |multiset(DecidedBets(bets))|;
    }
    SettledProfitAnyOrder(bets);
    if sorted != [] {
      assert sorted[..|sorted| - 1 + 1] == sorted;
    }
  }

  /** The last running total is the profit of all settled bets. */
  lemma SettledProfitAnyOrder(bets: seq<Bet>)
    ensures ProfitSum(ChronologicalSettled(bets)) == ProfitSum(DecidedBets(bets))
  {
    SumByPermutation(ChronologicalSettled(bets), DecidedBets(bets), Profit);
  }

  // ---------------------------------------------------------------------------
  // Profit per sport

  datatype SportTotal = SportTotal(sport: Sport, profit: real)

  function SportOf(e: SportTotal): Sport { e.sport }

  function TotalOf(e: SportTotal): real { e.profit }

  predicate HasSelections(b: Bet)
  {
    |b.selections| > 0
  }

  /** A bet's whole profit is credited to the sport of its first selection. */
  predicate CreditedTo(b: Bet, sport: Sport)
  {
    |b.selections| > 0 && b.selections[0].sport == sport
  }

  /** Some bet of `bs` is credited to `sport`. */
  predicate AnyCreditedTo(bs: seq<Bet>, sport: Sport)
  {
    exists b :: b in bs && CreditedTo(b, sport)
  }

  /** The profit credited to `sport`. */
  function SportProfit(bs: seq<Bet>, sport: Sport): real
  {
    ProfitSum(Filter(bs, b => CreditedTo(b, sport)))
  }

  /** `Object.entries(profitBySport)`: the keys in `order`, each with its value. */
  function Entries(order: seq<Sport>, m: map<Sport, real>): (r: seq<SportTotal>)
    requires forall s :: s in order ==> s in m
    ensures |r| == |order|
    ensures forall i :: 0 <= i < |order| ==> r[i] == SportTotal(order[i], m[order[i]])
  {
    if order == [] then []
    else Entries(order[..|order| - 1], m) + [SportTotal(order[|order| - 1], m[order[|order| - 1]])]
  }

  /** The state of the `profitBySport` object: its keys in insertion order,
      which `Object.entries` follows, and its values. */
  datatype Tally = Tally(order: seq<Sport>, totals: map<Sport, real>)

  /** The body of the `forEach`: a bet with selections adds its profit to the
      entry of its first selection's sport, which is created (or, holding 0,
      reset to 0) first. */
  function Credit(t: Tally, bet: Bet): Tally
  {
    if |bet.selections| == 0 then t
    else
      var sport := bet.selections[0].sport;
      var order := if sport in t.totals then t.order else t.order + [sport];
      var base := if sport in t.totals && t.totals[sport] != 0.0 then t.totals[sport] else 0.0;
      Tally(order, t.totals[sport := base + bet.profit])
  }

  /** The object after the `forEach` over `bs`. */
  function TallyOf(bs: seq<Bet>): Tally
  {
    if bs == [] then Tally([], map[]) else Credit(TallyOf(bs[..|bs| - 1]), bs[|bs| - 1])
  }

  /** The sports of the first selections of the bets that have selections,
      in the order of the bets, repeats kept. */
  function FirstSports(bs: seq<Bet>): seq<Sport>
  {
    if bs == [] then []
    else
      var last := bs[|bs| - 1];
      FirstSports(bs[..|bs| - 1]) + (if |last.selections| > 0 then [last.selections[0].sport] else [])
  }

  /** The keys listed are the keys of the object, each once. */
  ghost predicate WellFormed(t: Tally)
  {
    && (forall s :: s in t.totals <==> s in t.order)
    && (forall p, q :: 0 <= p < q < |t.order| ==> t.order[p] != t.order[q])
  }

  /** `profitBySportData`: one entry per sport some settled bet is credited
      to, in the order those sports first occur, holding the profit credited
      to it; bets without selections are skipped. */
  method ProfitBySport(bets: seq<Bet>) returns (r: seq<SportTotal>)
    ensures forall i, j :: 0 <= i < j < |r| ==> r[i].sport != r[j].sport
    ensures forall i :: 0 <= i < |r| ==> r[i].profit == SportProfit(DecidedBets(bets), r[i].sport)
    ensures forall sport: Sport :: sport in Map(r, SportOf) <==> AnyCreditedTo(DecidedBets(bets), sport)
    ensures SumBy(r, TotalOf) == ProfitSum(Filter(DecidedBets(bets), HasSelections))
    ensures Map(r, SportOf) == Distinct(FirstSports(DecidedBets(bets)))
  {
    var settled := DecidedBets(bets);
    var profitBySport: map<Sport, real> := map[];
    var order: seq<Sport> := [];
    for i := 0 to |settled|
      invariant Tally(order, profitBySport) == TallyOf(settled[..i])
    {
      assert settled[..i + 1][..i] == settled[..i];
      order, profitBySport := CreditBet(order, profitBySport, settled[i]);
    }
    assert settled[..|settled|] == settled;
    TallyWellFormed(settled);
    r := Entries(order, profitBySport);
    TallyEntryValues(settled);
    TallyEntrySports(settled);
    TallySum(settled);
    TallyOrder(settled);
    EntriesSports(order, profitBySport);
  }

  /** The `forEach` callback, updating the object in place. */
  method CreditBet(order: seq<Sport>, profitBySport: map<Sport, real>, bet: Bet)
    returns (order': seq<Sport>, profitBySport': map<Sport, real>)
    ensures Tally(order', profitBySport') == Credit(Tally(order, profitBySport), bet)
  {
    order', profitBySport' := order, profitBySport;
    if |bet.selections| > 0 {
      var sport := bet.selections[0].sport;
      if sport !in profitBySport' || profitBySport'[sport] == 0.0 {
        if sport !in profitBySport' {
          order' := order' + [sport];
        }
        profitBySport' := profitBySport'[sport := 0.0];
      }
      profitBySport' := profitBySport'[sport := profitBySport'[sport] + bet.profit];
    }
  }

  /** Each entry after the `forEach` over `bs` holds the profit credited to
      its sport. */
  lemma TallyEntryValues(bs: seq<Bet>)
    ensures WellFormed(TallyOf(bs))
    ensures var r := Entries(TallyOf(bs).order, TallyOf(bs).totals);
      forall i :: 0 <= i < |r| ==> r[i].profit == SportProfit(bs, r[i].sport)
  {
    TallyWellFormed(bs);
    TallyTotals(bs);
  }

  /** The entries after the `forEach` over `bs` name exactly the sports some
      bet is credited to. */
  lemma TallyEntrySports(bs: seq<Bet>)
    ensures WellFormed(TallyOf(bs))
    ensures var r := Entries(TallyOf(bs).order, TallyOf(bs).totals);
      forall sport: Sport :: sport in Map(r, SportOf) <==> AnyCreditedTo(bs, sport)
  {
    var t := TallyOf(bs);
    TallyWellFormed(bs);
    TallyKeys(bs);
    var r := Entries(t.order, t.totals);
    forall sport: Sport ensures sport in Map(r, SportOf) <==> sport in t.order {
      if sport in t.order {
        var k :| 0 <= k < |t.order| && t.order[k] == sport;
        assert Map(r, SportOf)[k] == sport;
      }
    }
  }

  lemma {:induction false} TallyWellFormed(bs: seq<Bet>)
    ensures WellFormed(TallyOf(bs))
  {
    if bs != [] {
      TallyWellFormed(bs[..|bs| - 1]);
    }
  }

  /** The object's keys are in the order in which the bets first credit
      their sports. */
  lemma {:induction false} TallyOrder(bs: seq<Bet>)
    ensures TallyOf(bs).order == Distinct(FirstSports(bs))
  {
    if bs != [] {
      var init, last := bs[..|bs| - 1], bs[|bs| - 1];
      TallyOrder(init);
      TallyWellFormed(init);
      if |last.selections| > 0 {
        var sport, before := last.selections[0].sport, FirstSports(init);
        assert FirstSports(bs) == before + [sport];
        assert (before + [sport])[..|before|] == before;
        assert sport in TallyOf(init).totals <==> sport in Distinct(before);
      } else {
        assert FirstSports(bs) == FirstSports(init) + [] == FirstSports(init);
        assert TallyOf(bs) == Credit(TallyOf(init), last) == TallyOf(init);
      }
    }
  }

  /** The sports of the entries are the listed keys, in their order. */
  lemma EntriesSports(order: seq<Sport>, m: map<Sport, real>)
    requires forall s :: s in order ==> s in m
    ensures Map(Entries(order, m), SportOf) == order
  {
  }

  /** Each value is the profit credited to its sport; a sport without an
      entry has nothing credited. */
  lemma {:induction false} TallyTotals(bs: seq<Bet>)
    ensures forall s :: s in TallyOf(bs).totals ==> TallyOf(bs).totals[s] == SportProfit(bs, s)
    ensures forall s :: s !in TallyOf(bs).totals ==> SportProfit(bs, s) == 0.0
  {
    if bs != [] {
      var init, last := bs[..|bs| - 1], bs[|bs| - 1];
      TallyTotals(init);
      forall s ensures SportProfit(bs, s) == SportProfit(init, s) + (if CreditedTo(last, s) then last.profit else 0.0) {
        SportProfitLast(bs, s);
      }
    }
  }

  lemma SportProfitLast(bs: seq<Bet>, s: Sport)
    requires bs != []
    ensures SportProfit(bs, s)
      == SportProfit(bs[..|bs| - 1], s) + (if CreditedTo(bs[|bs| - 1], s) then bs[|bs| - 1].profit else 0.0)
  {
    SumByFilterLast(bs, b => CreditedTo(b, s), Profit);
  }

  /** A sport has an entry exactly when some bet is credited to it. */
  lemma {:induction false} TallyKeys(bs: seq<Bet>)
    ensures forall s :: s in TallyOf(bs).order <==> AnyCreditedTo(bs, s)
  {
    if bs != [] {
      var init, last := bs[..|bs| - 1], bs[|bs| - 1];
      TallyKeys(init);
      TallyWellFormed(init);
      forall s ensures AnyCreditedTo(bs, s) <==> AnyCreditedTo(init, s) || CreditedTo(last, s) {
        if AnyCreditedTo(bs, s) && !CreditedTo(last, s) {
          var b :| b in bs && CreditedTo(b, s);
          assert bs == init + [last];
          assert b in init;
        }
        if AnyCreditedTo(init, s) {
          var b :| b in init && CreditedTo(b, s);
          assert b in bs;
        }
      }
    }
  }

  /** The values add up to the profit of the bets that have selections. */
  lemma {:induction false} TallySum(bs: seq<Bet>)
    ensures WellFormed(TallyOf(bs))
    ensures SumBy(Entries(TallyOf(bs).order, TallyOf(bs).totals), TotalOf) == ProfitSum(Filter(bs, HasSelections))
  {
    TallyWellFormed(bs);
    if bs != [] {
      var init, last := bs[..|bs| - 1], bs[|bs| - 1];
      TallySum(init);
      CreditSum(TallyOf(init), last);
      SumByFilterLast(bs, HasSelections, Profit);
    }
  }

  /** Crediting a bet with selections adds its profit to the sum of the
      entries; a bet without selections changes nothing. */
  lemma CreditSum(t: Tally, bet: Bet)
    requires WellFormed(t)
    ensures SumBy(Entries(Credit(t, bet).order, Credit(t, bet).totals), TotalOf)
      == SumBy(Entries(t.order, t.totals), TotalOf) + (if HasSelections(bet) then bet.profit else 0.0)
  {
    if |bet.selections| > 0 {
      var sport := bet.selections[0].sport;
      if sport in t.totals {
        CreditListedSport(t, bet, sport);
      } else {
        CreditNewSport(t, bet, sport);
      }
    }
  }

  lemma CreditListedSport(t: Tally, bet: Bet, sport: Sport)
    requires WellFormed(t)
    requires |bet.selections| > 0 && bet.selections[0].sport == sport && sport in t.totals
    ensures SumBy(Entries(Credit(t, bet).order, Credit(t, bet).totals), TotalOf)
      == SumBy(Entries(t.order, t.totals), TotalOf) + bet.profit
  {
    var v := t.totals[sport] + bet.profit;
    assert Credit(t, bet) == Tally(t.order, t.totals[sport := v]);
    EntriesUpdate(t.order, t.totals, sport, v);
  }

  lemma CreditNewSport(t: Tally, bet: Bet, sport: Sport)
    requires WellFormed(t)
    requires |bet.selections| > 0 && bet.selections[0].sport == sport && sport !in t.totals
    ensures SumBy(Entries(Credit(t, bet).order, Credit(t, bet).totals), TotalOf)
      == SumBy(Entries(t.order, t.totals), TotalOf) + bet.profit
  {
    var order, m := t.order + [sport], t.totals[sport := bet.profit];
    assert Credit(t, bet) == Tally(order, m);
    EntriesFresh(t.order, t.totals, sport, bet.profit);
    EntriesLast(order, m);
    assert order[..|t.order|] == t.order;
  }

  /** The sum of the entries grows by the value of the last key. */
  lemma EntriesLast(order: seq<Sport>, m: map<Sport, real>)
    requires order != [] && forall s :: s in order ==> s in m
    ensures SumBy(Entries(order, m), TotalOf)
      == SumBy(Entries(order[..|order| - 1], m), TotalOf) + m[order[|order| - 1]]
  {
    var e := Entries(order, m);
    assert e[..|e| - 1] == Entries(order[..|order| - 1], m);
  }

  /** Changing the value of a key already listed changes the sum by the
      difference. */
  lemma {:induction false} EntriesUpdate(order: seq<Sport>, m: map<Sport, real>, sport: Sport, v: real)
    requires forall s :: s in order ==> s in m
    requires forall p, q :: 0 <= p < q < |order| ==> order[p] != order[q]
    requires sport in order
    ensures SumBy(Entries(order, m[sport := v]), TotalOf) == SumBy(Entries(order, m), TotalOf) - m[sport] + v
  {
    var init, last := order[..|order| - 1], order[|order| - 1];
    EntriesLast(order, m);
    EntriesLast(order, m[sport := v]);
    if last == sport {
      assert sport !in init by {
        DistinctLast(order);
      }
      EntriesFresh(init, m, sport, v);
    } else {
      assert sport in init by {
        assert order == init + [last];
      }
      assert forall p, q :: 0 <= p < q < |init| ==> init[p] != init[q] by {
        assert forall p :: 0 <= p < |init| ==> init[p] == order[p];
      }
      EntriesUpdate(init, m, sport, v);
    }
  }

  /** The last key of a list without repetitions does not occur before. */
  lemma DistinctLast(order: seq<Sport>)
    requires order != []
    requires forall p, q :: 0 <= p < q < |order| ==> order[p] != order[q]
    ensures order[|order| - 1] !in order[..|order| - 1]
  {
  }

  /** Adding a key not listed leaves the entries of the listed keys alone. */
  lemma EntriesFresh(order: seq<Sport>, m: map<Sport, real>, sport: Sport, v: real)
    requires forall s :: s in order ==> s in m
    requires sport !in order
    ensures Entries(order, m[sport := v]) == Entries(order, m)
  {
    var e, e' := Entries(order, m), Entries(order, m[sport := v]);
    forall i | 0 <= i < |order| ensures e'[i] == e[i] {
      assert order[i] != sport;
    }
  }

  // ---------------------------------------------------------------------------
  // Bankroll replayed backwards

  /** A change of the bankroll at a moment. */
  datatype BankrollEvent = BankrollEvent(date: int, change: real)

  function EventDate(e: BankrollEvent): real { e.date as real }

  function Change(e: BankrollEvent): real { e.change }

  /** A settled bet changes the bankroll by its profit at its date and time,
      23:59:59 when it has no time. */
  function BetEvent(b: Bet): BankrollEvent
  {
    BankrollEvent(DateTime(b, LastSecondOfDay), b.profit)
  }

  /** A deposit adds its amount, anything else takes it away. */
  function TransactionEvent(t: Transaction): BankrollEvent
  {
    BankrollEvent(t.date, if t.kind == Deposit then t.amount else -t.amount)
  }

  /** The bet events, then the transaction events, most recent first (`allEvents`). */
  function Events(bets: seq<Bet>, transactions: seq<Transaction>): (r: seq<BankrollEvent>)
    ensures Ordered(r, EventDate, true)
    ensures |r| == |DecidedBets(bets)| + |transactions|
    ensures SumBy(r, Change) == ProfitSum(DecidedBets(bets)) + SignedSum(transactions)
    ensures multiset(r) == multiset(Map(DecidedBets(bets), BetEvent) + Map(transactions, TransactionEvent))
  {
    var betEvents := Map(DecidedBets(bets), BetEvent);
    var transactionEvents := Map(transactions, TransactionEvent);
    var r := SortBy(betEvents + transactionEvents, EventDate, true);
    assert SumBy(r, Change) == ProfitSum(DecidedBets(bets)) + SignedSum(transactions) by {
      SumByPermutation(r, betEvents + transactionEvents, Change);
      SumByConcat(betEvents, transactionEvents, Change);
      SumByMap(DecidedBets(bets), BetEvent, Change, Profit);
      SumByMap(transactions, TransactionEvent, Change, Signed);
    }
    assert |r| == |multiset(r)| == |multiset(betEvents + transactionEvents)|;
    r
  }

  /** One point per event of `events` (most recent first): dated by the
      event, carrying the bankroll before that event and every later one. */
  function Replay(bankroll: real, events: seq<BankrollEvent>): (r: seq<ChartPoint>)
    ensures |r| == |events|
    ensures forall k :: 0 <= k < |events| ==>
      r[k] == ChartPoint(Some(events[k].date), bankroll - SumBy(events[..k + 1], Change))
  {
    if events == [] then []
    else
      var init := events[..|events| - 1];
      var r := Replay(bankroll, init) + [ChartPoint(Some(events[|events| - 1].date), bankroll - SumBy(events, Change))];
      forall k | 0 <= k < |events|
        ensures r[k] == ChartPoint(Some(events[k].date), bankroll - SumBy(events[..k + 1], Change))
      {
        if k < |init| {
          assert init[..k + 1] == events[..k + 1];
        } else {
          assert events[..k + 1] == events;
        }
      }
      r
  }

  /** The points of the bankroll chart: the current bankroll dated `today`,
      then the replayed points, read backwards. */
  function BankrollPoints(bets: seq<Bet>, transactions: seq<Transaction>, bankroll: real, today: int): seq<ChartPoint>
  {
    Reverse([ChartPoint(Some(today), bankroll)] + Replay(bankroll, Events(bets, transactions)))
  }

  /** `bankrollEvolutionData`: starting from the current bankroll, undo the
      events one by one from the most recent, then reverse the points. */
  method BankrollEvolution(bets: seq<Bet>, transactions: seq<Transaction>, bankroll: real, today: int)
    returns (points: seq<ChartPoint>)
    ensures points == BankrollPoints(bets, transactions, bankroll, today)
  {
    var allEvents := Events(bets, transactions);
    var dataPoints := ReplayLoop(bankroll, today, allEvents);
    points := Reverse(dataPoints);
  }

  /** The `for` loop of `bankrollEvolutionData`: walk back from the current
      bankroll through the events, most recent first, pushing a point after
      undoing each. */
  method ReplayLoop(bankroll: real, today: int, allEvents: seq<BankrollEvent>) returns (dataPoints: seq<ChartPoint>)
    ensures dataPoints == [ChartPoint(Some(today), bankroll)] + Replay(bankroll, allEvents)
  {
    var currentBankroll := bankroll;
    dataPoints := [ChartPoint(Some(today), currentBankroll)];
    for i := 0 to |allEvents|
      invariant currentBankroll == bankroll - SumBy(allEvents[..i], Change)
      invariant dataPoints == [ChartPoint(Some(today), bankroll)] + Replay(bankroll, allEvents[..i])
    {
      ReplayStep(bankroll, allEvents, i);
      currentBankroll := currentBankroll - allEvents[i].change;
      dataPoints := dataPoints + [ChartPoint(Some(allEvents[i].date), currentBankroll)];
    }
    assert allEvents[..|allEvents|] == allEvents;
  }

  /** Replaying one more event appends one point. */
  lemma ReplayStep(bankroll: real, events: seq<BankrollEvent>, i: nat)
    requires i < |events|
    ensures SumBy(events[..i + 1], Change) == SumBy(events[..i], Change) + events[i].change
    ensures Replay(bankroll, events[..i + 1])
      == Replay(bankroll, events[..i]) + [ChartPoint(Some(events[i].date), bankroll - SumBy(events[..i + 1], Change))]
  {
    assert events[..i + 1][..i] == events[..i];
  }

  /** The bankroll chart has a point per settled bet and per transaction plus
      one; it ends at the current bankroll and starts at the bankroll minus
      every change. */
  lemma BankrollEnds(bets: seq<Bet>, transactions: seq<Transaction>, bankroll: real, today: int)
    ensures var points := BankrollPoints(bets, transactions, bankroll, today);
      && |points| == |DecidedBets(bets)| + |transactions| + 1
      && points[|points| - 1] == ChartPoint(Some(today), bankroll)
      && points[0].value == bankroll - (ProfitSum(DecidedBets(bets)) + SignedSum(transactions))
  {
    var events := Events(bets, transactions);
    var data := [ChartPoint(Some(today), bankroll)] + Replay(bankroll, events);
    var n := |events|;
    if n > 0 {
      assert events[..n] == events;
      assert Reverse(data)[0] == data[n];
    }
  }

  /** Read forwards, the bankroll chart runs forward in time. */
  lemma BankrollChronological(bets: seq<Bet>, transactions: seq<Transaction>, bankroll: real, today: int)
    ensures var points := BankrollPoints(bets, transactions, bankroll, today);
      forall i, j :: 0 <= i < j < |points| - 1 ==> points[i].date.value <= points[j].date.value
  {
    ReplayChronological(bankroll, today, Events(bets, transactions));
  }

  lemma ReplayChronological(bankroll: real, today: int, events: seq<BankrollEvent>)
    requires Ordered(events, EventDate, true)
    ensures var points := Reverse([ChartPoint(Some(today), bankroll)] + Replay(bankroll, events));
      forall i, j :: 0 <= i < j < |points| - 1 ==> points[i].date.value <= points[j].date.value
  {
    var replayed := Replay(bankroll, events);
    var data := [ChartPoint(Some(today), bankroll)] + replayed;
    var points := Reverse(data);
    var n := |events|;
    assert forall i :: 0 <= i < n ==> points[i].date == Some(events[n - 1 - i].date) by {
      forall i | 0 <= i < n ensures points[i].date == Some(events[n - 1 - i].date) {
        assert points[i] == data[n - i] == replayed[n - 1 - i];
      }
    }
    forall i, j | 0 <= i < j < n ensures points[i].date.value <= points[j].date.value {
      assert InOrder(EventDate(events[n - 1 - j]), EventDate(events[n - 1 - i]), true);
    }
  }

  // ---------------------------------------------------------------------------
  // Transactions shown and the colour of the bankroll

  /** `displayedTransactions`: all of them when expanded, otherwise the first
      two (fewer when there are fewer). */
  function DisplayedTransactions(transactions: seq<Transaction>, expanded: bool): (r: seq<Transaction>)
    ensures expanded ==> r == transactions
    ensures !expanded ==> |r| == (if |transactions| < 2 then |transactions| else 2)
    ensures |r| <= |transactions| && r == transactions[..|r|]
  {
    if expanded then transactions
    else if |transactions| < 2 then transactions
    else transactions[..2]
  }

  /** The bankroll figure is green when it is at least what was put in net. */
  predicate ShownGreen(s: Stats)
  {
    s.bankroll >= s.totalDeposited - s.totalWithdrawn
  }

  /** Green exactly when the bankroll is at least the signed sum of the
      transactions. */
  lemma GreenIffAboveNetDeposits(bets: seq<Bet>, transactions: seq<Transaction>, bankroll: real)
    ensures ShownGreen(ComputeStats(bets, transactions, bankroll)) <==> bankroll >= SignedSum(transactions)
  {
    StatsNetBalance(bets, transactions, bankroll);
  }

  /** When the bankroll holds exactly the transactions and the bet profits
      (nothing set by hand), it is green exactly when the bets are in profit. */
  lemma GreenIffProfitable(bets: seq<Bet>, transactions: seq<Transaction>, bankroll: real)
    requires bankroll == SignedSum(transactions) + ProfitSum(bets)
    ensures ShownGreen(ComputeStats(bets, transactions, bankroll)) <==> ComputeStats(bets, transactions, bankroll).totalProfit >= 0.0
  {
    GreenIffAboveNetDeposits(bets, transactions, bankroll);
    StatsNetBalance(bets, transactions, bankroll);
  }
}
