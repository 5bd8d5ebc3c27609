/** The bet slip of the add-bet dialog (AddBetModal.tsx): a list of draft
    selections built one at a time from a selection form, the running total
    odds and potential return, and the ticket the dialog hands to the ledger.
    Text inputs that the source parses with `parseFloat` are `Option<real>`
    here (`None` for text that does not parse); the date and time inputs are
    `Option<int>` (`None` for an empty input). */
module BetSlip {
  import opened Common
  import opened Types
  import opened Text
  import opened Resolver

  /** The market types of the market catalogue; only `Custom` changes how a
      pick is read. */
  datatype MarketKind = Result1X2 | Result12 | OverUnder | YesNo | Handicap | Custom

  datatype Market = Market(name: string, kind: MarketKind)

  /** The pick configurator's answers; an empty string is an answer not given. */
  datatype PickDetails = PickDetails(choice: string, customPick: string, customMarket: string)

  /** The inputs of the selection form. */
  datatype SelectionForm = SelectionForm(
    sport: Sport,
    homeTeam: string,
    awayTeam: string,
    event: string,
    market: Option<Market>,
    pick: PickDetails,
    odds: Option<real>,
    detailedPick: string)

  /** The inputs that describe the ticket as a whole. */
  datatype TicketForm = TicketForm(
    betName: string,
    stake: Option<real>,
    date: Option<int>,
    time: Option<int>,
    bookmaker: string)

  /** A selection before it has an id and a status. */
  datatype DraftSelection = DraftSelection(
    event: string,
    market: string,
    pick: string,
    detailedPick: string,
    odds: real,
    sport: Sport)

  datatype Totals = Totals(totalOdds: real, potentialReturn: real)

  function DraftOdds(d: DraftSelection): real { d.odds }

  /** Sports whose events are named by two contestants. */
  predicate IsTeamSport(sport: Sport)
  {
    sport in [Football, Basketball, Tennis]
  }

  /** The event name the form describes. */
  function EventName(form: SelectionForm): string
  {
    if IsTeamSport(form.sport) then form.homeTeam + " vs " + form.awayTeam else form.event
  }

  /** The pick the form describes: the free-text pick of a custom market,
      otherwise the chosen option ("" when there is none). */
  function FinalPick(market: Market, pick: PickDetails): string
  {
    if market.kind == Custom then pick.customPick
    else if pick.choice != "" then pick.choice
    else ""
  }

  /** The selection the form describes, or `None` when the form is rejected:
      no market, odds missing or not above 1, an event name that is blank or
      only "vs", or an empty pick. */
  function Draft(form: SelectionForm): (r: Option<DraftSelection>)
    ensures r.Some? <==>
      && form.market.Some? && form.odds.Some? && form.odds.value > 1.0
      && Trim(EventName(form)) != "" && Trim(EventName(form)) != "vs"
      && FinalPick(form.market.value, form.pick) != ""
    ensures r.Some? ==>
      && r.value.odds == form.odds.value
      && r.value.sport == form.sport
      && r.value.event == EventName(form)
      && r.value.pick == FinalPick(form.market.value, form.pick)
      && r.value.market == (if form.pick.customMarket != "" then form.pick.customMarket else form.market.value.name)
      && r.value.detailedPick == form.detailedPick
  {
    if form.market.None? || form.odds.None? || form.odds.value <= 1.0 then None
    else if Trim(EventName(form)) == "" || Trim(EventName(form)) == "vs" then None
    else if FinalPick(form.market.value, form.pick) == "" then None
    else
      var market := if form.pick.customMarket != "" then form.pick.customMarket else form.market.value.name;
      Some(DraftSelection(EventName(form), market, FinalPick(form.market.value, form.pick),
                          form.detailedPick, form.odds.value, form.sport))
  }

  /** `resetSelectionForm`: every input cleared except the chosen sport. */
  function ResetForm(form: SelectionForm): (r: SelectionForm)
    ensures r.sport == form.sport
    ensures Draft(r).None?
  {
    SelectionForm(form.sport, "", "", "", None, PickDetails("", "", ""), None, "")
  }

  /** The totals memo: the product of the odds and that product times the
      stake (an unparsable stake counts as 0), or 0 and 0 with no selections. */
  function ComputeTotals(selections: seq<DraftSelection>, stake: Option<real>): (r: Totals)
    ensures selections == [] ==> r == Totals(0.0, 0.0)
    ensures selections != [] ==>
      r.totalOdds == ProductBy(selections, DraftOdds) && r.potentialReturn == stake.GetOr(0.0) * r.totalOdds
    ensures stake.None? ==> r.potentialReturn == 0.0
  {
    var stakeNum := stake.GetOr(0.0);
    if |selections| == 0 then Totals(0.0, 0.0)
    else
      var calculatedOdds := ProductBy(selections, DraftOdds);
      Totals(calculatedOdds, stakeNum * calculatedOdds)
  }

  /** `filter((_, index) => index !== i)`: drops position `i`, if there is one. */
  function DropIndex<T>(s: seq<T>, i: int): (r: seq<T>)
    ensures 0 <= i < |s| ==> r == s[..i] + s[i + 1..]
    ensures !(0 <= i < |s|) ==> r == s
  {
    if s == [] then []
    else
      var rest := DropIndex(s[1..], i - 1);
      if i == 0 then rest
      else
        assert 0 < i < |s| ==> s[..i] + s[i + 1..] == [s[0]] + (s[1..][..i - 1] + s[1..][i..]);
        [s[0]] + rest
  }

  /** The ticket a submit hands to the ledger (without its id, which the
      ledger assigns), or `None` when there is no selection, the stake is not
      positive or the date is empty. Each selection gets the next of
      `selectionIds` and starts open. */
  function Ticket(selections: seq<DraftSelection>, ticket: TicketForm, selectionIds: seq<string>): (r: Option<Bet>)
    requires |selectionIds| == |selections|
    ensures r.Some? <==> |selections| > 0 && ticket.stake.Some? && ticket.stake.value > 0.0 && ticket.date.Some?
    ensures r.Some? ==>
      && r.value.status == BetStatus.Pending && r.value.profit == 0.0
      && r.value.stake == ticket.stake.value
      && r.value.name == (if ticket.betName != "" then ticket.betName else selections[0].event)
      && r.value.totalOdds == ComputeTotals(selections, ticket.stake).totalOdds
      && r.value.potentialReturn == ComputeTotals(selections, ticket.stake).potentialReturn
      && r.value.date == ticket.date.value && r.value.time == ticket.time
      && r.value.bookmaker == Some(ticket.bookmaker)
      && r.value.selections == OpenSelections(selections, selectionIds)
      && |r.value.selections| == |selections|
      && (forall i :: 0 <= i < |selections| ==>
            r.value.selections[i].status == SelectionStatus.Pending
            && r.value.selections[i].id == selectionIds[i]
            && r.value.selections[i].odds == selections[i].odds
            && r.value.selections[i].event == selections[i].event
            && r.value.selections[i].market == selections[i].market
            && r.value.selections[i].pick == selections[i].pick
            && r.value.selections[i].sport == selections[i].sport)
  {
    if |selections| > 0 && ticket.stake.Some? && ticket.stake.value > 0.0 && ticket.date.Some? then
      var finalSelections := OpenSelections(selections, selectionIds);
      var totals := ComputeTotals(selections, ticket.stake);
      Some(Bet(
        "",
        if ticket.betName != "" then ticket.betName else finalSelections[0].event,
        ticket.stake.value,
        totals.totalOdds,
        totals.potentialReturn,
        BetStatus.Pending,
        ticket.date.value,
        ticket.time,
        0.0,
        Some(ticket.bookmaker),
        finalSelections))
    else None
  }

  /** The draft selections with their ids and an open status. */
  function OpenSelections(selections: seq<DraftSelection>, ids: seq<string>): (r: seq<Selection>)
    requires |ids| == |selections|
    ensures |r| == |selections|
    ensures forall i :: 0 <= i < |selections| ==>
      r[i] == Selection(ids[i], selections[i].event, selections[i].market, selections[i].pick,
                        Some(selections[i].detailedPick), selections[i].odds,
                        SelectionStatus.Pending, selections[i].sport)
  {
    if selections == [] then []
    else
      var d := selections[0];
      [Selection(ids[0], d.event, d.market, d.pick, Some(d.detailedPick), d.odds, SelectionStatus.Pending, d.sport)]
        + OpenSelections(selections[1..], ids[1..])
  }

  class BetSlipForm {
    var selections: seq<DraftSelection>
    var form: SelectionForm
    var ticket: TicketForm

    /** Every selection on the slip passed the form's checks. */
    ghost predicate Valid()
      reads this
    {
      forall i :: 0 <= i < |selections| ==> selections[i].odds > 1.0
    }

    constructor (ticket: TicketForm)
      ensures selections == [] && Draft(form).None? && form.sport == Football
      ensures this.ticket == ticket
      ensures Valid()
    {
      selections := [];
      form := ResetForm(SelectionForm(Football, "", "", "", None, PickDetails("", "", ""), None, ""));
      this.ticket := ticket;
    }

    /** `handleAddSelection`: append the selection the form describes and
        clear the form, or do nothing when the form is rejected. */
    method AddSelection()
      requires Valid()
      modifies this
      ensures Valid()
      ensures ticket == old(ticket)
      ensures Draft(old(form)).None? ==> selections == old(selections) && form == old(form)
      ensures Draft(old(form)).Some? ==>
        selections == old(selections) + [Draft(old(form)).value] && form == ResetForm(old(form))
    {
      var oddsNum := form.odds;
      if form.market.None? || oddsNum.None? || oddsNum.value == 0.0 || oddsNum.value <= 1.0 {
        return;
      }
      var activeMarket := form.market.value;
      var eventName := EventName(form);
      if Trim(eventName) == "" || Trim(eventName) == "vs" {
        return;
      }
      var finalPick := "";
      if activeMarket.kind == Custom {
        finalPick := form.pick.customPick;
      } else if form.pick.choice != "" {
        finalPick := form.pick.choice;
      }
      if finalPick == "" {
        return;
      }
      var market := if form.pick.customMarket != "" then form.pick.customMarket else activeMarket.name;
      assert Draft(form) == Some(DraftSelection(eventName, market, finalPick, form.detailedPick, oddsNum.value, form.sport));
      selections := selections + [DraftSelection(eventName, market, finalPick, form.detailedPick, oddsNum.value, form.sport)];
      form := ResetForm(form);
    }

    /** `handleRemoveSelection`. */
    method RemoveSelection(indexToRemove: int)
      requires Valid()
      modifies this
      ensures Valid()
      ensures form == old(form) && ticket == old(ticket)
      ensures selections == DropIndex(old(selections), indexToRemove)
    {
      selections := DropIndex(selections, indexToRemove);
    }

    /** `handleSubmit`: the ticket handed to the ledger, if any. */
    method Submit(selectionIds: seq<string>) returns (bet: Option<Bet>)
      requires |selectionIds| == |selections|
      ensures bet == Ticket(selections, ticket, selectionIds)
      ensures bet.Some? ==> Consistent(bet.value)
    {
      bet := Ticket(selections, ticket, selectionIds);
      if bet.Some? {
        SubmittedTicketIsOpen(selections, ticket, selectionIds);
      }
    }
  }

  // ---------------------------------------------------------------------------
  // Properties

  /** A team-sport form whose two team names are blank is rejected. */
  lemma BlankTeamsRejected(form: SelectionForm)
    requires IsTeamSport(form.sport)
    requires IsBlank(form.homeTeam) && IsBlank(form.awayTeam)
    ensures Draft(form).None?
  {
    var left, right := form.homeTeam + " ", " " + form.awayTeam;
    assert EventName(form) == left + "vs" + right;
    assert IsBlank(left) by {
      assert forall i :: 0 <= i < |form.homeTeam| ==> left[i] == form.homeTeam[i];
    }
    assert IsBlank(right) by {
      assert forall i :: 1 <= i < |right| ==> right[i] == form.awayTeam[i - 1];
    }
    TrimAroundBlank(left, "vs", right);
  }

  /** With a non-blank event text outside the team sports, only the market,
      the odds and the pick decide whether the form is accepted. */
  lemma EventTextAccepted(form: SelectionForm)
    requires !IsTeamSport(form.sport)
    requires !IsBlank(form.event) && Trim(form.event) != "vs"
    requires form.market.Some? && form.odds.Some? && form.odds.value > 1.0
    requires FinalPick(form.market.value, form.pick) != ""
    ensures Draft(form).Some? && Draft(form).value.event == form.event
  {
    TrimEmptyIffBlank(form.event);
  }

  /** A form whose odds are missing or at most 1 never adds a selection. */
  lemma LowOddsRejected(form: SelectionForm)
    requires form.odds.None? || form.odds.value <= 1.0
    ensures Draft(form).None?
  {
  }

  /** Odds above 1 on every selection put the product above 1. */
  lemma SlipOddsAboveOne(selections: seq<DraftSelection>)
    requires forall i :: 0 <= i < |selections| ==> selections[i].odds > 1.0
    ensures selections != [] ==> ProductBy(selections, DraftOdds) > 1.0
  {
    ProductByAtLeastOne(selections, DraftOdds);
  }

  /** On a slip whose selections all passed the form's checks, the total odds
      exceed 1 and a positive stake returns more than itself. */
  lemma TotalsAboveStake(selections: seq<DraftSelection>, stake: Option<real>)
    requires forall i :: 0 <= i < |selections| ==> selections[i].odds > 1.0
    ensures selections != [] ==> ComputeTotals(selections, stake).totalOdds > 1.0
    ensures selections != [] && stake.Some? && stake.value > 0.0 ==>
      ComputeTotals(selections, stake).potentialReturn > stake.value
  {
    SlipOddsAboveOne(selections);
    if selections != [] && stake.Some? && stake.value > 0.0 {
      var odds := ProductBy(selections, DraftOdds);
      assert ComputeTotals(selections, stake).potentialReturn == stake.value * odds;
      assert stake.value * odds - stake.value == stake.value * (odds - 1.0) > 0.0;
    }
  }

  /** Adding a selection to a non-empty slip multiplies the total odds by its
      odds; on an empty slip its odds become the total odds. The potential
      return follows the total odds. */
  lemma AddedSelectionMultipliesOdds(selections: seq<DraftSelection>, d: DraftSelection, stake: Option<real>)
    ensures ComputeTotals(selections + [d], stake).totalOdds
      == (if selections == [] then 1.0 else ComputeTotals(selections, stake).totalOdds) * d.odds
    ensures ComputeTotals(selections + [d], stake).potentialReturn
      == stake.GetOr(0.0) * ComputeTotals(selections + [d], stake).totalOdds
  {
    assert (selections + [d])[..|selections|] == selections;
    assert ProductBy(selections + [d], DraftOdds) == ProductBy(selections, DraftOdds) * d.odds;
  }

  /** The totals do not depend on the order of the selections. */
  lemma TotalsOrderIndependent(selections: seq<DraftSelection>, other: seq<DraftSelection>, stake: Option<real>)
    requires multiset(selections) == multiset(other)
    ensures ComputeTotals(selections, stake) == ComputeTotals(other, stake)
  {
    assert |selections| == |multiset(selections)| == |multiset(other)| == |other|;
    ProductByPermutation(selections, other, DraftOdds);
  }

  /** Removing a selection keeps the others, in order. */
  lemma DropIndexKeepsOthers<T>(s: seq<T>, i: int)
    requires 0 <= i < |s|
    ensures |DropIndex(s, i)| == |s| - 1
    ensures forall j :: 0 <= j < i ==> DropIndex(s, i)[j] == s[j]
    ensures forall j :: i < j < |s| ==> DropIndex(s, i)[j - 1] == s[j]
  {
  }

  /** A submitted ticket is open with every leg open, so the resolver agrees
      with its status and profit. */
  lemma SubmittedTicketIsOpen(selections: seq<DraftSelection>, ticket: TicketForm, selectionIds: seq<string>)
    requires |selectionIds| == |selections|
    requires Ticket(selections, ticket, selectionIds).Some?
    ensures Consistent(Ticket(selections, ticket, selectionIds).value)
  {
    var bet := Ticket(selections, ticket, selectionIds).value;
    OpenTicketIsPending(bet.selections, bet.stake);
  }
}
