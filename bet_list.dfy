/** The list of bets (BetList.tsx): the bookmaker choices offered above it, the
    bets it shows under a status filter, a bookmaker filter and a sort order,
    and the settle buttons it puts next to an open selection. */
module BetList {
  import opened Common
  import opened Types
  import opened Text
  import opened Sorting

  function PotentialReturn(b: Bet): real { b.potentialReturn }

  // ---------------------------------------------------------------------------
  // Bookmaker choices

  /** A bookmaker name the choices list: one with a character other than white
      space (`!!b && b.trim() !== ''`). */
  predicate IsNamed(x: string)
  {
    Trim(x) != ""
  }

  /** The bet names bookmaker `x`, and `x` is not blank. */
  predicate NamesBookmaker(b: Bet, x: string)
  {
    b.bookmaker == Some(x) && IsNamed(x)
  }

  /** `bets.map(b => b.bookmaker).filter(b => !!b && b.trim() !== '')`: the
      named bookmakers of the bets, in the order of the bets, repeats kept. */
  function NamedBookmakers(bets: seq<Bet>): (r: seq<string>)
    ensures |r| <= |bets|
  {
    if bets == [] then []
    else
      var last := bets[|bets| - 1];
      NamedBookmakers(bets[..|bets| - 1])
        + (if last.bookmaker.Some? && IsNamed(last.bookmaker.value) then [last.bookmaker.value] else [])
  }

  /** The names collected are exactly those some bet names. */
  lemma {:induction false} NamedBookmakersMembers(bets: seq<Bet>)
    ensures forall x :: x in NamedBookmakers(bets) <==> exists b :: b in bets && NamesBookmaker(b, x)
  {
    if bets != [] {
      var init, last := bets[..|bets| - 1], bets[|bets| - 1];
      NamedBookmakersMembers(init);
      assert bets == init + [last];
      forall x | x in NamedBookmakers(bets)
        ensures exists b :: b in bets && NamesBookmaker(b, x)
      {
        if x in NamedBookmakers(init) {
          var b :| b in init && NamesBookmaker(b, x);
          assert b in bets;
        } else {
          assert NamesBookmaker(last, x);
        }
      }
      forall x | exists b :: b in bets && NamesBookmaker(b, x)
        ensures x in NamedBookmakers(bets)
      {
        var b :| b in bets && NamesBookmaker(b, x);
        if b != last {
          assert b in init;
        }
      }
    }
  }

  /** `['ALL', ...Array.from(new Set(all))]`: the bookmaker filter's choices. */
  function Bookmakers(bets: seq<Bet>): (r: seq<string>)
    ensures |r| >= 1 && r[0] == "ALL"
  {
    ["ALL"] + Distinct(NamedBookmakers(bets))
  }

  /** After "ALL", the choices are every bookmaker some bet names with a
      non-blank name, each once, in the order in which the bets first name them. */
  lemma BookmakerChoices(bets: seq<Bet>)
    ensures forall x :: x in Bookmakers(bets)[1..] <==> exists b :: b in bets && b.bookmaker == Some(x) && !IsBlank(x)
    ensures forall i, j :: 1 <= i < j < |Bookmakers(bets)| ==> Bookmakers(bets)[i] != Bookmakers(bets)[j]
    ensures forall i, j :: 1 <= i < j < |Bookmakers(bets)| ==>
      FirstIndexOf(NamedBookmakers(bets), Bookmakers(bets)[i])
        < FirstIndexOf(NamedBookmakers(bets), Bookmakers(bets)[j])
  {
    var named := NamedBookmakers(bets);
    var choices := Bookmakers(bets);
    assert choices[1..] == Distinct(named);
    NamedBookmakersMembers(bets);
    DistinctFirstAppearance(named);
    forall x ensures IsNamed(x) <==> !IsBlank(x) {
      TrimEmptyIffBlank(x);
    }
    forall i, j | 1 <= i < j < |choices|
      ensures FirstIndexOf(named, choices[i]) < FirstIndexOf(named, choices[j])
    {
      assert choices[i] == Distinct(named)[i - 1] && choices[j] == Distinct(named)[j - 1];
    }
  }

  // ---------------------------------------------------------------------------
  // Filtering

  /** `bookmakerFilter === 'ALL' || bet.bookmaker === bookmakerFilter`. */
  predicate PassesBookmaker(b: Bet, bookmakerFilter: string)
  {
    bookmakerFilter == "ALL" || b.bookmaker == Some(bookmakerFilter)
  }

  /** The bets left by the status filter and then the bookmaker filter, in
      their original order. */
  function FilteredBets(bets: seq<Bet>, activeFilter: StatusFilter, bookmakerFilter: string): (r: seq<Bet>)
    ensures |r| <= |bets|
  {
    var byStatus := Filter(bets, b => PassesStatus(b, activeFilter));
    Filter(byStatus, b => PassesBookmaker(b, bookmakerFilter))
  }

  /** Each bet that passes both filters is kept as often as it occurs, and no
      other bet is kept. */
  lemma FilteredCount(bets: seq<Bet>, activeFilter: StatusFilter, bookmakerFilter: string, b: Bet)
    ensures multiset(FilteredBets(bets, activeFilter, bookmakerFilter))[b]
      == if PassesStatus(b, activeFilter) && PassesBookmaker(b, bookmakerFilter) then multiset(bets)[b] else 0
  {
    var byStatus := Filter(bets, b => PassesStatus(b, activeFilter));
    FilterCount(bets, b => PassesStatus(b, activeFilter), b);
    FilterCount(byStatus, b => PassesBookmaker(b, bookmakerFilter), b);
  }

  // ---------------------------------------------------------------------------
  // Sort orders

  datatype SortField = ByDate | ByStake | ByPotential

  /** A sort choice: the field compared and the direction. */
  datatype SortOrder = SortOrder(field: SortField, descending: bool)

  /** The values of the sort control. */
  const SortOptions: seq<string> :=
    ["date-desc", "date-asc", "stake-desc", "stake-asc", "potential-desc", "potential-asc"]

  /** The value of the sort control that selects `o`. */
  function SortOrderCode(o: SortOrder): string
  {
    match o.field
    case ByDate => if o.descending then "date-desc" else "date-asc"
    case ByStake => if o.descending then "stake-desc" else "stake-asc"
    case ByPotential => if o.descending then "potential-desc" else "potential-asc"
  }

  /** The `switch (sortOrder)`: the sort a value selects, or `None` for the
      `default` branch. */
  function ParseSortOrder(s: string): (r: Option<SortOrder>)
    ensures r.Some? ==> SortOrderCode(r.value) == s
  {
    if s == "date-desc" then Some(SortOrder(ByDate, true))
    else if s == "date-asc" then Some(SortOrder(ByDate, false))
    else if s == "stake-desc" then Some(SortOrder(ByStake, true))
    else if s == "stake-asc" then Some(SortOrder(ByStake, false))
    else if s == "potential-desc" then Some(SortOrder(ByPotential, true))
    else if s == "potential-asc" then Some(SortOrder(ByPotential, false))
    else None
  }

  /** Every sort choice has a value of its own, and the values selecting a
      sort are exactly the control's options. */
  lemma SortOrderCodes(o: SortOrder, s: string)
    ensures ParseSortOrder(SortOrderCode(o)) == Some(o)
    ensures ParseSortOrder(s).Some? <==> s in SortOptions
  {
    assert "date-desc"[0] == 'd' && "stake-desc"[0] == 's' && "potential-desc"[0] == 'p';
    assert "date-desc"[5] == 'd' && "date-asc"[5] == 'a';
    assert "stake-desc"[6] == 'd' && "stake-asc"[6] == 'a';
    assert "potential-desc"[10] == 'd' && "potential-asc"[10] == 'a';
  }

  /** What the comparator of a sort field subtracts. */
  function SortKey(f: SortField): Bet -> real
  {
    match f
    case ByDate => BetDateTime
    case ByStake => Stake
    case ByPotential => PotentialReturn
  }

  /** `displayedBets`: the filtered bets, sorted as `sortOrder` selects, or
      left in their order when it selects nothing. */
  function DisplayedBets(bets: seq<Bet>, activeFilter: StatusFilter, bookmakerFilter: string, sortOrder: string): (r: seq<Bet>)
    ensures multiset(r) == multiset(FilteredBets(bets, activeFilter, bookmakerFilter))
    ensures ParseSortOrder(sortOrder).Some? ==>
      Ordered(r, SortKey(ParseSortOrder(sortOrder).value.field), ParseSortOrder(sortOrder).value.descending)
    ensures ParseSortOrder(sortOrder).None? ==> r == FilteredBets(bets, activeFilter, bookmakerFilter)
  {
    var sorted := FilteredBets(bets, activeFilter, bookmakerFilter);
    match ParseSortOrder(sortOrder)
    case None => sorted
    case Some(o) => SortBy(sorted, SortKey(o.field), o.descending)
  }

  /** The list shows each bet that passes both filters as often as `bets`
      holds it, and nothing else, whatever the sort order. */
  lemma DisplayedExactly(bets: seq<Bet>, activeFilter: StatusFilter, bookmakerFilter: string, sortOrder: string, b: Bet)
    ensures multiset(DisplayedBets(bets, activeFilter, bookmakerFilter, sortOrder))[b]
      == if PassesStatus(b, activeFilter) && PassesBookmaker(b, bookmakerFilter) then multiset(bets)[b] else 0
    ensures b in DisplayedBets(bets, activeFilter, bookmakerFilter, sortOrder)
      <==> b in bets && PassesStatus(b, activeFilter) && PassesBookmaker(b, bookmakerFilter)
  {
    FilteredCount(bets, activeFilter, bookmakerFilter, b);
  }

  /** The default order lists the newest kick-off first. */
  lemma DefaultNewestFirst(bets: seq<Bet>, activeFilter: StatusFilter, bookmakerFilter: string)
    ensures Ordered(DisplayedBets(bets, activeFilter, bookmakerFilter, "date-desc"), BetDateTime, true)
  {
    assert ParseSortOrder("date-desc") == Some(SortOrder(ByDate, true));
  }

  // ---------------------------------------------------------------------------
  // Settle buttons

  /** `SelectionActions`: the statuses offered for an open selection (won,
      lost, void), and none once it is settled. */
  function OfferedActions(sel: Selection): (r: seq<SelectionStatus>)
    ensures r != [] <==> sel.status == SelectionStatus.Pending
    ensures forall i :: 0 <= i < |r| ==> r[i] != SelectionStatus.Pending
  {
    if sel.status != SelectionStatus.Pending then []
    else [SelectionStatus.Won, SelectionStatus.Lost, SelectionStatus.Void]
  }

  /** The buttons settle a selection once: every status other than open is
      offered, and after any of them is applied none is offered any more. */
  lemma SettleOnce(sel: Selection, st: SelectionStatus)
    requires sel.status == SelectionStatus.Pending
    ensures st in OfferedActions(sel) <==> st != SelectionStatus.Pending
    ensures st in OfferedActions(sel) ==> OfferedActions(sel.(status := st)) == []
  {
  }
}
