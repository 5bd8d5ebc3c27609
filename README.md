# Bet tracker: settlement, ledger and views, in Dafny

This project models the core of a single-user sports-betting tracker, a React
application. The model covers the following parts:

- **The records** (`types.dfy`): selections, bets and cash transactions, and
  the string encodings of their enumerations.
- **The resolver** (`resolver.dfy`): it derives a bet's status and profit from
  the statuses of its selections. The precedence is:
  - a lost leg loses the ticket;
  - otherwise an open leg keeps it open;
  - otherwise an all-void ticket is void;
  - otherwise the ticket wins at the product of the odds of its won legs.
- **The ledger** (`app.dfy`): a class `AppState` holding the bets, the
  transactions and the bankroll. It has one method per handler: add bet,
  settle a selection, delete bet, add, edit and delete transaction, and set
  bankroll.

  The bankroll is an accumulator. Every handler except `SetBankroll` moves it
  by exactly what that handler adds to or removes from two sums:
  - the transactions' signed amounts;
  - the bets' profits.

  So `Residual()` (the bankroll minus both sums) is preserved. Each handler's
  `ensures` states its whole new state and what happens to `Residual()`.
- **The statistics** (`stats.dfy`): the `stats` figures.
- **The add-bet dialog** (`bet_slip.dfy`): a class `BetSlipForm` over the
  selection list. It holds the form checks, the totals and the submitted
  ticket.
- **The dashboard's derived data** (`dashboard.dfy`):
  - the settled bets;
  - the cumulative profit chart;
  - profit per sport;
  - the backward bankroll replay;
  - the collapsed transaction list;
  - the colour of the bankroll figure.

  The chart builders are methods with loops, proved against specification
  functions.
- **The bet list view** (`bet_list.dfy`): the bookmaker choices, the
  filter-then-sort of the displayed bets and the settle buttons.
- **The history view** (`history.dfy`): settled bets, a status filter, an
  inclusive day range, newest first.

`common.dfy`, `sorting.dfy` and `text.dfy` hold the building blocks: the
JavaScript array operations the code relies on (`reduce`, `filter`, `find`,
`map`, `reverse`, de-duplication through a `Set`), a stable sort, and
`String.prototype.trim`.

Modelling conventions:

- Money and odds are `real`.
- A bet's `date` is the integer timestamp of its day, and its `time`, when
  present, is an offset in milliseconds within that day.
- Fresh ids (`crypto.randomUUID`) are method parameters. A precondition
  requires them to be fresh.
- Id uniqueness within each list is the class invariant `Valid()`.
- Text that the dialog parses with `parseFloat` is an `Option<real>`. `None`
  stands for text that does not parse.
- A sort with a numeric comparator is a stable insertion sort by a `real` key.
  The language requires `Array.prototype.sort` to be stable, so that result is
  the one the application computes.

## Model

| member | source | states |
|---|---|---|
| Types.AsBetStatus | types.ts:28-33 | a selection status maps to the bet status with the same encoding, and to no other |
| Types.BetStatusesAreSelectionStatuses | types.ts:1-6 | every bet status is the image of some selection status, so a badge can show either enumeration |
| Types.TransactionTypeCodes | types.ts:49-52 | the encodings "DEPOSIT" and "WITHDRAWAL" identify the two types, and a type that is not a deposit is a withdrawal |
| Resolver.RecalculateBetStatusAndProfit | App.tsx:153-177 | the loop over the won odds yields the resolver's status and profit; every other field of the bet is kept |
| Resolver.MultiplyWonOdds | App.tsx:168-175 | the `forEach` loop ends with the product of the odds of the won selections, void, lost and open ones counting as 1 |
| Resolver.ResolvePrecedence | App.tsx:156-166 | each status is reached exactly under its rung of the ladder (Lost iff a lost leg; Pending iff no lost leg and an open leg; Void iff neither and all legs void; Won iff a won leg and no lost or open leg); Lost carries profit -stake, Pending and Void carry 0 |
| Resolver.EmptyResolvesVoid | App.tsx:164 | a bet without selections resolves to Void with profit 0 |
| Resolver.ResolveOrderIndependent | App.tsx:153-177 | resolution depends only on the multiset of selections, not on their order |
| Resolver.OnlyWonOddsMatter | App.tsx:168-175 | the odds of void, lost and open legs do not affect the result |
| Resolver.AllWonProfit | App.tsx:168-176 | a non-empty all-won ticket wins stake times the product of all its odds, minus the stake |
| Resolver.ProfitBounds | App.tsx:156-176 | with stake >= 0 and odds >= 1, the profit is at least -stake, and a won ticket never has a negative profit |
| Resolver.OpenTicketIsPending | App.tsx:160-161 | a non-empty ticket with every leg open resolves to Pending with profit 0 |
| Resolver.SetSelectionStatus | App.tsx:186-188 | exactly the selections with the given id get the new status; every other selection and the order are kept |
| Resolver.ResettleSameStatus | App.tsx:186-190 | setting the status a selection already has leaves a consistent bet unchanged |
| App.SortTransactions | App.tsx:92 | the result is a permutation of the input, ordered by date, newest first |
| App.ReplaceTransaction | App.tsx:122 | replacing by id and re-sorting keeps the ids unique and the length, and moves the signed sum by the new record's signed amount minus the stored record's |
| App.ReplaceBet | App.tsx:199 | replacing a bet by id keeps the ids unique, moves the profit sum by the change in that bet's profit, and keeps every bet consistent when the replacement is |
| App.RemoveTransaction | App.tsx:142 | dropping the id removes exactly one record, keeps the ids unique and takes the stored record's signed amount off the sum; that stored record is the one handed in when it is in the list |
| App.RemoveBet | App.tsx:208 | dropping the id removes exactly one bet, keeps the ids unique, takes its profit off the sum and keeps the others consistent; a consistent open or void bet has profit 0 |
| App.SettleInList | App.tsx:186-199 | storing the re-resolved bet keeps the ids unique, moves the profit sum by the change in its profit and keeps every bet consistent |
| App.ResettleInPlace | App.tsx:179-201 | re-setting a selection's own status leaves the bet and the whole list unchanged |
| App.ReplaceBetBySelf | App.tsx:199 | storing a bet in its own place leaves the list unchanged |
| App.ReverseThenApply | App.tsx:105-120 | the new bankroll is the old one minus the stored record's signed amount plus the edited record's; an edit that keeps type and amount leaves it unchanged |
| App.AppState.constructor | App.tsx:13-15 | the initial state is empty with bankroll 0, and `Residual()` is 0 |
| App.AppState.AddBet | App.tsx:63-70 | the bet gets the fresh id and goes to the front; transactions and bankroll are untouched; `Residual()` drops by the new bet's profit, so it is preserved for a consistent open bet |
| App.AppState.AddTransaction | App.tsx:87-99 | the list is the re-sorted list with the new record in it, one longer; the bankroll moves by +amount for a deposit and -amount for a withdrawal; `Residual()` is preserved |
| App.AppState.UpdateTransaction | App.tsx:101-124 | an unknown id changes nothing; otherwise bankroll = old bankroll - signed(stored) + signed(new), the record is replaced by id, the list is re-sorted and keeps its length; `Residual()` is preserved |
| App.AppState.DeleteTransaction | App.tsx:126-144 | an unknown id changes nothing; otherwise the bankroll reverses the record handed in, every entry with that id goes (exactly one), and `Residual()` moves by the difference between the stored and the handed-in record, which is 0 when the handed-in record is the stored one |
| App.AppState.SetBankroll | App.tsx:147-150 | the bankroll is overwritten and the lists are kept; `Residual()` moves by the overwrite |
| App.AppState.UpdateSelectionStatus | App.tsx:179-201 | an unknown bet id changes nothing; otherwise the bet with that id is replaced by its re-resolved form with that selection's new status, the bankroll moves by new profit minus old profit, transactions are untouched, bankroll minus the profit sum is preserved, and consistency of all bets is preserved |
| App.AppState.DeleteBet | App.tsx:203-209 | the bankroll drops by the deleted bet's profit (so a consistent open or void bet leaves it unchanged), every bet with that id goes, and `Residual()` is preserved |
| Stats.DecidedBets | App.tsx:215 | holds exactly the won and lost bets of the list; open and void bets are excluded |
| Stats.ComputeStats | App.tsx:211-226 | totalStaked and totalProfit are the sums of the stakes and profits of all bets; roi is totalProfit as a percentage of totalStaked (0 when nothing is staked) and has the sign of totalProfit; winRate is the won bets as a percentage of the won and lost bets (0 when there are none) and lies in [0, 100]; totalDeposited and totalWithdrawn sum the deposits and withdrawals; netBalance is withdrawn minus deposited; totalBets is the number of bets and the bankroll is passed through |
| Stats.WinRateExtremes | App.tsx:215-218 | winRate is 100 exactly when some bet is won and none is lost, and 0 exactly when no bet is won |
| Stats.PercentageExtremes | App.tsx:217-218 | a part of a total is 100 percent exactly when it is all of a positive total, and 0 percent exactly when it or the total is 0 |
| Stats.NetBalanceIsNegatedLedger | App.tsx:221-223 | withdrawn minus deposited equals minus the sum of the signed transaction amounts |
| Stats.StatsNetBalance | App.tsx:213-223 | netBalance is minus the signed sum and totalProfit is the profit sum |
| Stats.BankrollDecomposition | App.tsx:211-226 | while `Residual()` is r, the bankroll equals r + deposited - withdrawn + totalProfit |
| Stats.LossesBoundedByStakes | App.tsx:213-214 | for consistent bets with non-negative stakes and odds >= 1, the total profit is at least minus the total staked |
| Text.Trim | components/AddBetModal.tsx:95 | the result is no longer than the input and neither starts nor ends with white space |
| Text.TrimEmptyIffBlank | components/AddBetModal.tsx:95 | `s.trim()` is empty exactly when `s` is all white space |
| BetSlip.Draft | components/AddBetModal.tsx:87-115 | a selection is produced iff there is a market, the odds parse and exceed 1, the trimmed event name is neither empty nor "vs", and the pick is non-empty; the produced selection carries those odds, the sport, the event name, the pick, the custom market or else the market name, and the detailed pick |
| BetSlip.ResetForm | components/AddBetModal.tsx:79-85 | the sport is kept and the cleared form describes no selection |
| BetSlip.ComputeTotals | components/AddBetModal.tsx:134-142 | no selections give totals 0 and 0; otherwise totalOdds is the product of the selections' odds and potentialReturn is the stake (0 when unparsable) times totalOdds |
| BetSlip.AddedSelectionMultipliesOdds | components/AddBetModal.tsx:137 | appending a selection multiplies the total odds by its odds (starting from 1 on an empty slip), and the potential return stays stake times total odds |
| BetSlip.DropIndex | components/AddBetModal.tsx:145 | position i is cut out when it exists; otherwise the list is unchanged |
| BetSlip.Ticket | components/AddBetModal.tsx:148-170 | a ticket is produced iff there is a selection, the stake is positive and the date is set; it is open with profit 0, has the stake, is named by the bet name or else the first event, carries the slip's total odds and potential return, the date, the time and the bookmaker, and its selections are `OpenSelections` of the drafts: one open selection per draft, with its fresh id and its odds, event, market, pick and sport |
| BetSlip.OpenSelections | components/AddBetModal.tsx:152-156 | each draft becomes a selection with its id, its fields and an open status |
| BetSlip.BetSlipForm.constructor | components/AddBetModal.tsx:60-68 | the slip starts empty with a cleared Football form |
| BetSlip.BetSlipForm.AddSelection | components/AddBetModal.tsx:87-115 | a rejected form changes nothing; an accepted one appends exactly its selection and clears the form; every selection on the slip has odds above 1 |
| BetSlip.BetSlipForm.RemoveSelection | components/AddBetModal.tsx:144-146 | the slip becomes the list without position i |
| BetSlip.BetSlipForm.Submit | components/AddBetModal.tsx:148-170 | the emitted ticket is `Ticket` of the slip, and its cached status and profit agree with the resolver |
| BetSlip.BlankTeamsRejected | components/AddBetModal.tsx:91-95 | a team-sport form whose two team names are blank is rejected (the name trims to "vs") |
| BetSlip.EventTextAccepted | components/AddBetModal.tsx:91-95 | outside team sports, a non-blank event text other than "vs" is accepted as the event name |
| BetSlip.LowOddsRejected | components/AddBetModal.tsx:88-89 | missing odds or odds at most 1 never add a selection |
| BetSlip.SlipOddsAboveOne | components/AddBetModal.tsx:137 | the product of odds that each exceed 1 exceeds 1 |
| BetSlip.TotalsAboveStake | components/AddBetModal.tsx:134-142 | on a valid slip the total odds exceed 1, and a positive stake has a potential return above the stake |
| BetSlip.TotalsOrderIndependent | components/AddBetModal.tsx:137 | the totals do not depend on the order of the selections |
| BetSlip.DropIndexKeepsOthers | components/AddBetModal.tsx:144-146 | removing position i shortens the list by one and keeps every other selection in order |
| BetSlip.SubmittedTicketIsOpen | components/AddBetModal.tsx:151-167 | a submitted ticket is consistent with the resolver (open, profit 0) |
| Sorting.SortBy | components/BetList.tsx:194-210 | the result is a permutation of the input, ordered by the key in the requested direction |
| Dashboard.ChronologicalSettled | components/Dashboard.tsx:62-66 | the settled bets, permuted into ascending order of date and time |
| Dashboard.RunningProfit | components/Dashboard.tsx:67-74 | point k is dated by bet k and carries the profit sum of bets 0..k |
| Dashboard.ProfitEvolution | components/Dashboard.tsx:61-76 | the chart is a zero start point followed by the running totals of the chronological settled bets; it has one point more than there are settled bets, and its last value is the total settled profit |
| Dashboard.AccumulateProfit | components/Dashboard.tsx:66-74 | the `map` with its running sum yields exactly the running-profit points of the sorted bets |
| Dashboard.ProfitEvolutionEnds | components/Dashboard.tsx:61-76 | the chart has one point per settled bet plus the start point, and its last point is the profit of all settled bets |
| Dashboard.SettledProfitAnyOrder | components/Dashboard.tsx:61-76 | the running total over the sorted bets ends at the profit of the settled bets |
| Dashboard.Entries | components/Dashboard.tsx:93-96 | one entry per listed key, in insertion order, with that key's value |
| Dashboard.ProfitBySport | components/Dashboard.tsx:79-97 | the sports listed are distinct, are exactly those some settled bet's first selection has, and come in the order in which the settled bets first name them; each value is the profit credited to that sport; the values add up to the profit of the settled bets that have selections |
| Dashboard.CreditBet | components/Dashboard.tsx:83-90 | the callback's update of the key list and the totals object is the crediting step |
| Dashboard.TallyEntryValues | components/Dashboard.tsx:82-96 | after the `forEach`, each entry holds the profit credited to its sport |
| Dashboard.TallyEntrySports | components/Dashboard.tsx:82-96 | after the `forEach`, the entries name exactly the sports some bet is credited to |
| Dashboard.TallyWellFormed | components/Dashboard.tsx:82-91 | the key list holds each key of the object once |
| Dashboard.TallyTotals | components/Dashboard.tsx:82-91 | each stored value is the profit credited to its sport; a sport without a key has none credited |
| Dashboard.TallyOrder | components/Dashboard.tsx:82-96 | the object's keys are the first-selection sports of the bets, each once, in order of first appearance |
| Dashboard.TallyKeys | components/Dashboard.tsx:82-91 | a sport gets a key exactly when some bet is credited to it |
| Dashboard.TallySum | components/Dashboard.tsx:82-96 | the values add up to the profit of the bets with selections |
| Dashboard.CreditSum | components/Dashboard.tsx:83-90 | crediting a bet with selections adds its profit to the sum of the entries; a bet without selections changes nothing |
| Dashboard.Events | components/Dashboard.tsx:100-110 | the events are a permutation of the settled bets' events followed by the transactions' events, ordered newest first, and their changes add up to the settled profit plus the signed transaction sum |
| Dashboard.Replay | components/Dashboard.tsx:118-124 | point k is dated by event k and holds the bankroll minus the changes of events 0..k |
| Dashboard.ReplayLoop | components/Dashboard.tsx:112-124 | the loop produces the current-bankroll point followed by the replay |
| Dashboard.BankrollEvolution | components/Dashboard.tsx:99-127 | the points are the reversed replay of the events from the current bankroll |
| Dashboard.BankrollEnds | components/Dashboard.tsx:99-127 | there is one point per settled bet and per transaction, plus one; the last point is today's bankroll; the first is the bankroll minus all changes |
| Dashboard.BankrollChronological | components/Dashboard.tsx:110-126 | read forwards, the event points are in non-decreasing date order |
| Dashboard.DisplayedTransactions | components/Dashboard.tsx:129 | all transactions when expanded, otherwise the first min(2, n), always a prefix |
| Dashboard.GreenIffAboveNetDeposits | components/Dashboard.tsx:179 | the bankroll is shown green iff it is at least the signed transaction sum |
| Dashboard.GreenIffProfitable | components/Dashboard.tsx:179 | when the bankroll is the signed sum plus the bet profits, it is green iff the total profit is non-negative |
| Common.Distinct | components/BetList.tsx:180 | each value of the input appears once, and nothing else does |
| Common.DistinctFirstAppearance | components/BetList.tsx:180 | the de-duplicated values keep the order of their first occurrence |
| Common.Reverse | components/Dashboard.tsx:126 | position k holds the input's position n-1-k |
| BetList.NamedBookmakers | components/BetList.tsx:177-179 | never longer than the bet list |
| BetList.NamedBookmakersMembers | components/BetList.tsx:177-179 | holds exactly the non-blank bookmaker names some bet carries |
| BetList.Bookmakers | components/BetList.tsx:176-181 | the choices start with "ALL" |
| BetList.BookmakerChoices | components/BetList.tsx:176-181 | after "ALL", the choices are every non-blank bookmaker some bet names, each once, in order of first appearance |
| BetList.FilteredBets | components/BetList.tsx:184-192 | never longer than the bet list |
| BetList.FilteredCount | components/BetList.tsx:184-192 | a bet passing both the status filter and the bookmaker filter is kept as often as it occurs; any other bet is dropped ("ALL" passes everything) |
| BetList.ParseSortOrder | components/BetList.tsx:195-209 | a recognised value selects the sort whose control value it is |
| BetList.SortOrderCodes | components/BetList.tsx:160-167 | every sort choice has its own value, and the values that select a sort are exactly the six options |
| BetList.DisplayedBets | components/BetList.tsx:183-211 | the list is a permutation of the filtered bets, ordered by the selected field in the selected direction; an unknown value keeps filter order |
| BetList.DisplayedExactly | components/BetList.tsx:183-211 | the list holds each bet passing both filters as often as the input does, and nothing else, for any sort value |
| BetList.DefaultNewestFirst | components/BetList.tsx:196-197 | "date-desc" orders by date and time (a missing time counts as midnight), newest first |
| BetList.OfferedActions | components/BetList.tsx:43-72 | buttons are offered iff the selection is open, and none of them targets the open status |
| BetList.SettleOnce | components/BetList.tsx:43-72 | an open selection is offered exactly the three settled statuses, and after any of them it is offered nothing |
| History.FilterOptionsSettledOnly | components/History.tsx:51-56 | the status control offers every settled status and never the open one |
| History.HistoricalBets | components/History.tsx:68-100 | the history is ordered by date and time, newest first |
| History.HistoricalExactly | components/History.tsx:69-92 | the history holds each won, lost or void bet that passes the status filter and the day range as often as the input does, and nothing else |
| History.NeverPending | components/History.tsx:69-73 | an open bet never appears in the history |
| History.RangeInclusive | components/History.tsx:80-92 | a range from day d to day e keeps exactly the bets dated from the start of d to the last millisecond of e, so both end days are included |
| History.OpenRangeWider | components/History.tsx:82-89 | an empty start or end date drops no bet the bounded range keeps |

## Left out

- Persistence to `localStorage` (loading, saving, per-key error catching) is not modelled, because it is I/O.
- Rendering, modal flags, the active view, icons, logos and the colour classes of the status badge are not modelled, because they are presentation only.
- The transaction and bankroll dialogs are not modelled. Their guards become preconditions:
  - `AddTransaction` and `UpdateTransaction` require a positive amount;
  - `SetBankroll` requires a non-negative amount.
- `crypto.randomUUID` is not modelled. Fresh ids are parameters, with a freshness precondition.
- `Date` parsing, time zones and `toLocaleDateString` labels are not modelled. Dates are integer timestamps. Chart points carry the timestamp, not its formatted label, and the start point's "Inicio" label is `None`.
- The history's date bounds are taken in UTC. The source's `setHours` works in local time, and time zones are not modelled.
- An invalid date (`NaN` from `getTime`) makes the source's comparators inconsistent. That case is not modelled.
- Floating-point rounding of money and odds is not modelled, because amounts are `real`.
- The market catalogue, sport labels and the bookmaker picker are not modelled. Markets are a name plus a kind, and only the custom kind changes how a pick is read.
- White space for `trim` is limited to the ASCII white-space characters, the no-break space and the byte-order mark. Other Unicode space separators are not modelled.
- React's batching of state updates and the double run of the `setBets` updater under StrictMode are not modelled. Each handler is one atomic step.
- The order of `Object.entries` over the profit-per-sport object is modelled as an explicit list of keys in insertion order. This is the order the language gives to string keys.
- `ReplayLoop` is the whole `for` loop of components/Dashboard.tsx:112-124, together with the current-bankroll point the loop starts from. `AccumulateProfit` is the `map` of the profit chart, `MultiplyWonOdds` the resolver's `forEach` loop, `CreditBet` a `forEach` callback and `ReverseThenApply` a `setBankroll` updater. Each is a separate method so that it can be proved on its own.
- App.AppState.UpdateSelectionStatus: it states the preserved quantity as bankroll minus the profit sum, with the transactions unchanged, rather than as `Residual()`. The two are equivalent given that the transactions are unchanged.
- App.AppState.DeleteTransaction: it preserves `Residual()` only when the record handed in is the stored one. The source reverses the record it is given, not the one it finds.
- BetList.NamedBookmakers: its contract only bounds the length. Which names it holds is stated by `NamedBookmakersMembers`.
- BetList.FilteredBets: its contract only bounds the length. What it keeps is stated by `FilteredCount`.
- History.HistoricalBets: its contract states only the order. What it keeps is stated by `HistoricalExactly`.
- Sorting.SortBy: stability is not stated as a contract, although the insertion sort keeps equal keys in input order.
