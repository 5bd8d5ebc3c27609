/** The history view (History.tsx): the settled bets, narrowed by a status
    filter and an inclusive range of days, newest kick-off first. */
module History {
  import opened Common
  import opened Types
  import opened Sorting

  /** Milliseconds in a day. */
  const DayLength: int := 86_400_000

  /** Won, lost or void: the bets the history lists. */
  predicate IsHistorical(b: Bet)
  {
    b.status == BetStatus.Won || b.status == BetStatus.Lost || b.status == BetStatus.Void
  }

  /** The values of the status control: all, won, lost, void. */
  const FilterOptions: seq<StatusFilter> :=
    [AllStatuses, Only(BetStatus.Won), Only(BetStatus.Lost), Only(BetStatus.Void)]

  /** The control offers every settled status and never the open one. */
  lemma FilterOptionsSettledOnly(st: BetStatus)
    ensures Only(st) in FilterOptions <==> st != BetStatus.Pending
  {
    if st != BetStatus.Pending {
      assert FilterOptions[if st == BetStatus.Won then 1 else if st == BetStatus.Lost then 2 else 3] == Only(st);
    }
  }

  /** The date filter: on or after the start of the start day, when one is
      set, and no later than 23:59:59.999 of the end day, when one is set.
      Days are the timestamps of their first millisecond. */
  predicate InRange(b: Bet, startDate: Option<int>, endDate: Option<int>)
  {
    (startDate.None? || b.date >= startDate.value)
    && (endDate.None? || b.date <= endDate.value + LastMillisecondOfDay)
  }

  /** `historicalBets`: the settled bets passing the status filter and the date
      range, sorted by kick-off with the newest first. */
  function HistoricalBets(bets: seq<Bet>, activeFilter: StatusFilter, startDate: Option<int>, endDate: Option<int>): (r: seq<Bet>)
    ensures Ordered(r, BetDateTime, true)
  {
    var settled := Filter(bets, IsHistorical);
    var statusFiltered := Filter(settled, b => PassesStatus(b, activeFilter));
    var dateFiltered := Filter(statusFiltered, b => InRange(b, startDate, endDate));
    SortBy(dateFiltered, BetDateTime, true)
  }

  /** The history holds each settled bet that passes the status filter and
      the range as often as `bets` does, and nothing else. */
  lemma HistoricalExactly(bets: seq<Bet>, activeFilter: StatusFilter, startDate: Option<int>, endDate: Option<int>, b: Bet)
    ensures multiset(HistoricalBets(bets, activeFilter, startDate, endDate))[b]
      == if IsHistorical(b) && PassesStatus(b, activeFilter) && InRange(b, startDate, endDate)
         then multiset(bets)[b] else 0
    ensures b in HistoricalBets(bets, activeFilter, startDate, endDate)
      <==> b in bets && IsHistorical(b) && PassesStatus(b, activeFilter) && InRange(b, startDate, endDate)
  {
    var settled := Filter(bets, IsHistorical);
    var statusFiltered := Filter(settled, b => PassesStatus(b, activeFilter));
    FilterCount(bets, IsHistorical, b);
    FilterCount(settled, b => PassesStatus(b, activeFilter), b);
    FilterCount(statusFiltered, b => InRange(b, startDate, endDate), b);
  }

  /** Open bets never reach the history, whatever the filters. */
  lemma NeverPending(bets: seq<Bet>, activeFilter: StatusFilter, startDate: Option<int>, endDate: Option<int>, b: Bet)
    requires b.status == BetStatus.Pending
    ensures b !in HistoricalBets(bets, activeFilter, startDate, endDate)
  {
    HistoricalExactly(bets, activeFilter, startDate, endDate, b);
  }

  /** Both ends of the range are whole days: a range from day `d` to day `e`
      takes exactly the bets dated from the first millisecond of `d` to the
      last of `e`, so a one-day range takes that day's bets. */
  lemma RangeInclusive(b: Bet, d: int, e: int)
    ensures InRange(b, Some(d), Some(e)) <==> d <= b.date < e + DayLength
    ensures InRange(b, Some(d), Some(d)) <==> d <= b.date < d + DayLength
  {
  }

  /** Leaving a bound empty never drops a bet the bounded range keeps. */
  lemma OpenRangeWider(b: Bet, startDate: Option<int>, endDate: Option<int>)
    requires InRange(b, startDate, endDate)
    ensures InRange(b, None, endDate) && InRange(b, startDate, None) && InRange(b, None, None)
  {
  }
}
