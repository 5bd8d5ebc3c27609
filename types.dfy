/** The records of the bet tracker: selections, bets and cash transactions,
    with the string encodings of their enumerations, and the per-record
    quantities (stake, profit, signed amount) that the ledger adds up. */
module Types {
  import opened Common

  datatype SelectionStatus = Pending | Won | Lost | Void

  datatype BetStatus = Pending | Won | Lost | Void

  datatype TransactionType = Deposit | Withdrawal

  datatype Sport = Football | Basketball | Tennis | F1 | UFC

  /** One leg of a bet. Text that the source leaves optional is `Option`. */
  datatype Selection = Selection(
    id: string,
    event: string,
    market: string,
    pick: string,
    detailedPick: Option<string>,
    odds: real,
    status: SelectionStatus,
    sport: Sport)

  /** A ticket. `date` is the timestamp of the start of its day and `time`, when
      given, the offset of the kick-off time within that day (milliseconds). */
  datatype Bet = Bet(
    id: string,
    name: string,
    stake: real,
    totalOdds: real,
    potentialReturn: real,
    status: BetStatus,
    date: int,
    time: Option<int>,
    profit: real,
    bookmaker: Option<string>,
    selections: seq<Selection>)

  /** A cash movement; the source's field `type` is called `kind` here. */
  datatype Transaction = Transaction(
    id: string,
    kind: TransactionType,
    amount: real,
    date: int,
    bookmaker: Option<string>,
    notes: Option<string>)

  // ---------------------------------------------------------------------------
  // String encodings of the enumerations

  function SelectionStatusCode(s: SelectionStatus): string
  {
    match s
    case Pending => "PENDING"
    case Won => "WON"
    case Lost => "LOST"
    case Void => "VOID"
  }

  function BetStatusCode(s: BetStatus): string
  {
    match s
    case Pending => "PENDING"
    case Won => "WON"
    case Lost => "LOST"
    case Void => "VOID"
  }

  function TransactionTypeCode(t: TransactionType): string
  {
    match t
    case Deposit => "DEPOSIT"
    case Withdrawal => "WITHDRAWAL"
  }

  /** The bet status spelled like a selection status: the two enumerations
      share their encodings, so a badge can show either. */
  function AsBetStatus(s: SelectionStatus): (b: BetStatus)
    ensures BetStatusCode(b) == SelectionStatusCode(s)
    ensures forall c: BetStatus :: BetStatusCode(c) == SelectionStatusCode(s) ==> c == b
  {
    match s
    case Pending => BetStatus.Pending
    case Won => BetStatus.Won
    case Lost => BetStatus.Lost
    case Void => BetStatus.Void
  }

  /** Every bet status is the encoding of exactly one selection status. */
  lemma BetStatusesAreSelectionStatuses(b: BetStatus)
    ensures exists s: SelectionStatus :: AsBetStatus(s) == b
  {
    match b
    case Pending => assert AsBetStatus(SelectionStatus.Pending) == b;
    case Won => assert AsBetStatus(SelectionStatus.Won) == b;
    case Lost => assert AsBetStatus(SelectionStatus.Lost) == b;
    case Void => assert AsBetStatus(SelectionStatus.Void) == b;
  }

  /** Transaction types are told apart by their encodings, and a type that is
      not a deposit is a withdrawal. */
  lemma TransactionTypeCodes(t: TransactionType)
    ensures TransactionTypeCode(t) == "DEPOSIT" <==> t == Deposit
    ensures TransactionTypeCode(t) == "WITHDRAWAL" <==> t == Withdrawal
    ensures t != Deposit ==> t == Withdrawal
  {
    if t == Withdrawal {
      assert TransactionTypeCode(t)[0] == 'W';
    } else {
      assert TransactionTypeCode(t)[0] == 'D';
    }
  }

  // ---------------------------------------------------------------------------
  // Field accessors used as keys and summands

  function BetId(b: Bet): string { b.id }

  function TransactionId(t: Transaction): string { t.id }

  function Stake(b: Bet): real { b.stake }

  function Profit(b: Bet): real { b.profit }

  function Amount(t: Transaction): real { t.amount }

  function Odds(s: Selection): real { s.odds }

  /** What a transaction adds to the bankroll: its amount for a deposit,
      minus its amount for anything else. */
  function Signed(t: Transaction): real
  {
    if t.kind == Deposit then t.amount else -t.amount
  }

  /** Sum of the signed amounts of the transactions. */
  function SignedSum(ts: seq<Transaction>): real
  {
    SumBy(ts, Signed)
  }

  /** Sum of the profits of the bets. */
  function ProfitSum(bs: seq<Bet>): real
  {
    SumBy(bs, Profit)
  }

  // ---------------------------------------------------------------------------
  // Time of a bet and the status filter shared by the list views

  /** Milliseconds in a day up to the start of 23:59:59. */
  const LastSecondOfDay: int := 86_399_000

  /** Milliseconds in a day up to 23:59:59.999. */
  const LastMillisecondOfDay: int := 86_399_999

  /** The timestamp of `${date}T${time || fallback}`: the day plus the time
      within it, or plus `fallback` when the bet has no time. */
  function DateTime(b: Bet, fallback: int): int
  {
    b.date + b.time.GetOr(fallback)
  }

  /** `new Date(`${date}T${time || '00:00:00'}`).getTime()`, the sort key of
      the lists and of the profit chart. */
  function BetDateTime(b: Bet): real
  {
    DateTime(b, 0) as real
  }

  /** `BetStatus | 'ALL'`, the value of a status filter control. */
  datatype StatusFilter = AllStatuses | Only(status: BetStatus)

  /** `activeFilter === 'ALL' || bet.status === activeFilter`. */
  predicate PassesStatus(b: Bet, filter: StatusFilter)
  {
    filter.AllStatuses? || b.status == filter.status
  }
}
