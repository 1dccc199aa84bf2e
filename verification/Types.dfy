/**
 * The ledger's tables. Money is an integer number of 0.0001 units, an FX rate an integer number of 1e-10 units.
 * An account's, a period's and a transfer's id is its position in its table: accounts in ascending primary-key
 * order, periods in their (fund, start_date) order, transfers in commit order.
 */
module Types {
  import opened Results
  import opened Sums

  type FundId = nat
  type AccountId = nat
  type PeriodId = nat
  type TransferId = nat
  type Currency = string
  type Date = int
  type LpId = string // the text of the partner's UUID

  datatype AccountType = Cash | Investments | FeeExpense | GainLoss | LpCapital | GpCapital
  datatype TransferType = CapitalCall | Distribution | Fee | Investment | Reversal | Adjustment
  datatype Direction = Debit | Credit | Unknown(text: string)

  datatype Account = Account(fund: FundId, code: string, kind: AccountType, currency: Currency, owner: Option<LpId>)
  datatype Period = Period(fund: FundId, start: Date, end: Date)
  datatype Commitment = Commitment(fund: FundId, lp: LpId, committed: int)
  datatype FxRate = FxRate(from: Currency, to: Currency, rate: int, asOf: Date)

  /** The tables that stay fixed once a fund is open. `funds` gives each fund's base currency. */
  datatype World = World(
    funds: map<FundId, Currency>,
    accounts: seq<Account>,
    periods: seq<Period>,
    commitments: seq<Commitment>,
    rates: seq<FxRate>)

  datatype Leg = Leg(account: AccountId, direction: Direction, amount: int, fxRate: Option<int>, base: Option<int>)

  datatype PricedLeg = PricedLeg(entry: Entry, adjustable: bool)

  datatype Entry = Entry(
    account: AccountId, direction: Direction, amount: int, currency: Currency, fxRate: Option<int>, base: int)

  /** The canonical payload behind a request hash; equal hashes are equal payloads. */
  datatype Fingerprint =
    | TransferPrint(kind: TransferType, period: PeriodId, legs: seq<LegText>)
    | ReversalPrint(target: TransferId, period: PeriodId)
    | CallPrint(fund: FundId, total: string, notice: Date, due: Date)
    | DistributionPrint(fund: FundId, total: string, payment: Date, classification: string)

  /** One leg of a fingerprint: str(account id), str(direction), money text. */
  datatype LegText = LegText(account: string, direction: string, amount: string)

  datatype Transfer = Transfer(
    key: string, hash: Fingerprint, kind: TransferType, reverses: Option<TransferId>, period: PeriodId,
    entries: seq<Entry>)

  datatype CallDoc = CallDoc(fund: FundId, number: nat, notice: Date, due: Date, total: int, transfer: TransferId)
  datatype DistributionDoc = DistributionDoc(
    fund: FundId, number: nat, payment: Date, total: int, classification: string, transfer: TransferId)

  /** The committed rows. */
  datatype Books = Books(
    transfers: seq<Transfer>, closed: set<PeriodId>, calls: seq<CallDoc>, distributions: seq<DistributionDoc>)

  const EmptyBooks := Books([], {}, [], [])

  datatype Constraint =
    | IdempotencyKeyUnique | ReversesUnique | KeyPresent | ReversalShape | EntryPositive | PeriodOpen
    | CallDueAfterNotice | CallPositive | DistributionPositive

  datatype Error =
    | InvalidTransfer | UnbalancedTransfer | UnknownAccount | InsufficientFunds | ClosedPeriod
    | IdempotencyConflict | AlreadyReversed | MissingFxRate | CommitmentExceeded | NoPeriod | PeriodNotClosable
    | DoesNotExist
    | IntegrityError(constraint: Constraint)
    | OperationalError
  {
    /** The business-level failures, subclasses of LedgerError. */
    predicate IsLedgerError() {
      !DoesNotExist? && !IntegrityError? && !OperationalError?
    }
  }

  function Flip(d: Direction): Direction { if d == Debit then Credit else Debit }

  function Sign(d: Direction): int {
    match d
    case Debit => 1
    case Credit => -1
    case Unknown(_) => 0
  }

  function SignedBase(e: Entry): int { Sign(e.direction) * e.base }

  function SignedAmount(e: Entry): int { Sign(e.direction) * e.amount }

  /** The signed base amounts of the entries on a set of accounts. */
  function BaseIn(entries: seq<Entry>, accounts: set<AccountId>): int {
    SumBy(entries, (e: Entry) => if e.account in accounts then SignedBase(e) else 0)
  }

  function Imbalance(entries: seq<Entry>): int { SumBy(entries, (e: Entry) => SignedBase(e)) }

  function NativeOn(entries: seq<Entry>, account: AccountId): int {
    SumBy(entries, (e: Entry) => if e.account == account then SignedAmount(e) else 0)
  }
}
