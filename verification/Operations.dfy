/**
 * The business operations as functions of the committed rows: one request at a time, no interference
 * (operations/services.py, operations/periods.py, ledger/idempotency.py, ledger/services.py).
 */
module Operations {
  import opened Results
  import opened Sums
  import opened Sorting
  import opened Types
  import opened Chart
  import opened Queries
  import opened Posting
  import opened Fingerprints
  import Allocation
  import Pricing

  const PENNY := 100
  const FOUR_DP := 1

  /** A request to the ledger; `today` is the date the source takes from the clock. */
  datatype Request =
    | PostLegs(key: string, kind: TransferType, period: PeriodId, legs: seq<Leg>, fxDate: Date)
    | Call(key: string, fund: FundId, total: int, notice: Date, due: Date, today: Date)
    | Distribute(key: string, fund: FundId, total: int, payment: Date, classification: string, today: Date)
    | Reverse(key: string, target: TransferId, period: PeriodId, today: Date)
    | Close(fund: FundId, closing: PeriodId)

  datatype Response =
    | Transferred(id: TransferId, created: bool)
    | PeriodClosed(changed: bool)
    | Failed(error: Error)
  {
    predicate Success() { !Failed? }
  }

  // ---- Pro-rata plans ------------------------------------------------------------------------------------

  function Items(cs: seq<Commitment>): (r: seq<Allocation.Item>)
    ensures |r| == |cs| && forall i :: 0 <= i < |r| ==> r[i] == Allocation.Item(cs[i].lp, cs[i].committed)
  {
    seq(|cs|, i requires 0 <= i < |cs| => Allocation.Item(cs[i].lp, cs[i].committed))
  }

  datatype ShareRow = ShareRow(lp: LpId, share: int)

  function ShareRows(cs: seq<Commitment>, shares: seq<int>): (r: seq<ShareRow>)
    requires |cs| == |shares|
    ensures |r| == |cs| && forall i :: 0 <= i < |r| ==> r[i] == ShareRow(cs[i].lp, shares[i])
  {
    seq(|cs|, i requires 0 <= i < |cs| => ShareRow(cs[i].lp, shares[i]))
  }

  predicate ByLp(a: ShareRow, b: ShareRow) { StrLe(a.lp, b.lp) }

  /** The legs for one partner; a share that rounds to zero gets none. */
  function LegPair(w: World, fund: FundId, row: ShareRow, call: bool): seq<Leg> {
    var cash, capital := CashAccount(w, fund), LpAccount(w, fund, row.lp);
    if row.share == 0 then []
    else if call then [Leg(cash, Debit, row.share, None, None), Leg(capital, Credit, row.share, None, None)]
    else [Leg(capital, Debit, row.share, None, None), Leg(cash, Credit, row.share, None, None)]
  }

  function ShareLegs(w: World, fund: FundId, rows: seq<ShareRow>, call: bool): seq<Leg> {
    if rows == [] then []
    else ShareLegs(w, fund, rows[..|rows| - 1], call) + LegPair(w, fund, rows[|rows| - 1], call)
  }

  /** What a capital call or distribution works out from the fixed tables alone. */
  datatype Plan = Plan(period: PeriodId, shares: seq<int>, legs: seq<Leg>)

  function PlanFor(w: World, fund: FundId, total: int, on: Date, call: bool): (r: Result<Plan, Error>)
    ensures r.Ok? ==> |r.value.shares| == |CommitmentsOf(w, fund)| && r.value.period < |w.periods|
  {
    var period := PeriodFor(w, fund, on);
    var cs := CommitmentsOf(w, fund);
    if fund !in w.funds then Err(DoesNotExist)
    else if period == |w.periods| then Err(NoPeriod)
    else
      match Allocation.Allocated(total, Items(cs), PENNY)
      case Err(_) => Err(InvalidTransfer)
      case Ok(shares) => Ok(Plan(period, shares, ShareLegs(w, fund, Sort(ShareRows(cs, shares), ByLp), call)))
  }

  predicate CommitmentsAllow(w: World, ts: seq<Transfer>, fund: FundId, shares: seq<int>) {
    var cs := CommitmentsOf(w, fund);
    forall i :: 0 <= i < |cs| && i < |shares| ==>
      shares[i] <= cs[i].committed - Contributed(w, ts, LpAccount(w, fund, cs[i].lp))
  }

  /** A document's fund and number. */
  datatype Tag = Tag(fund: FundId, number: nat)

  function CallTags(calls: seq<CallDoc>): (r: seq<Tag>)
    ensures |r| == |calls| && forall n :: 0 <= n < |r| ==> r[n] == Tag(calls[n].fund, calls[n].number)
  {
    seq(|calls|, n requires 0 <= n < |calls| => Tag(calls[n].fund, calls[n].number))
  }

  function DistributionTags(docs: seq<DistributionDoc>): (r: seq<Tag>)
    ensures |r| == |docs| && forall n :: 0 <= n < |r| ==> r[n] == Tag(docs[n].fund, docs[n].number)
  {
    seq(|docs|, n requires 0 <= n < |docs| => Tag(docs[n].fund, docs[n].number))
  }

  /** `aggregate(Max(number)) or 0`. */
  function LastNumber(tags: seq<Tag>, fund: FundId): nat {
    if tags == [] then 0
    else
      var n := |tags| - 1;
      var m := LastNumber(tags[..n], fund);
      if tags[n].fund == fund && tags[n].number > m then tags[n].number else m
  }

  // ---- The draft behind a request ------------------------------------------------------------------------

  function HashOf(req: Request): Fingerprint
    requires !req.Close?
  {
    match req
    case PostLegs(_, kind, period, legs, _) => TransferFingerprint(kind, period, legs)
    case Call(_, fund, total, notice, due, _) => CallPrint(fund, MoneyText(total), notice, due)
    case Distribute(_, fund, total, payment, classification, _) =>
      DistributionPrint(fund, MoneyText(total), payment, classification)
    case Reverse(_, target, period, _) => ReversalPrint(target, period)
  }

  /** The leg that cancels an entry at the rate and base amount it was booked with. */
  function FlippedLeg(e: Entry): Leg { Leg(e.account, Flip(e.direction), e.amount, e.fxRate, Some(e.base)) }

  function FlippedLegs(entries: seq<Entry>): (r: seq<Leg>)
    ensures |r| == |entries| && forall i :: 0 <= i < |r| ==> r[i] == FlippedLeg(entries[i])
  {
    seq(|entries|, i requires 0 <= i < |entries| => FlippedLeg(entries[i]))
  }

  /** `source` is the transfer a reversal has read. */
  function DraftOf(w: World, req: Request, source: Option<Transfer>): Draft
    requires !req.Close?
  {
    match req
    case PostLegs(key, kind, period, legs, fxDate) =>
      Draft(key, HashOf(req), kind, None, period, legs, fxDate)
    case Call(key, fund, total, notice, due, today) =>
      PlannedDraft(key, HashOf(req), CapitalCall, PlanFor(w, fund, total, notice, true), today)
    case Distribute(key, fund, total, payment, classification, today) =>
      PlannedDraft(key, HashOf(req), Distribution, PlanFor(w, fund, total, payment, false), today)
    case Reverse(key, target, period, today) =>
      var legs := if source.Some? then FlippedLegs(source.value.entries) else [];
      Draft(key, HashOf(req), Reversal, Some(target), period, legs, today)
  }

  function PlannedDraft(key: string, hash: Fingerprint, kind: TransferType, plan: Result<Plan, Error>, today: Date)
    : Draft
  {
    match plan
    case Ok(p) => Draft(key, hash, kind, None, p.period, p.legs, today)
    case Err(_) => Draft(key, hash, kind, None, 0, [], today)
  }

  // ---- The create closures -------------------------------------------------------------------------------

  /** The number a new call or distribution takes: one more than the fund's largest. */
  function NextNumber(b: Books, req: Request): nat {
    match req
    case Call(_, fund, _, _, _, _) => LastNumber(CallTags(b.calls), fund) + 1
    case Distribute(_, fund, _, _, _, _) => LastNumber(DistributionTags(b.distributions), fund) + 1
    case _ => 0
  }

  /** The call or distribution row, numbered, that points at transfer `id`. */
  function WithDocument(b: Books, req: Request, number: nat, id: TransferId): Books {
    match req
    case Call(_, fund, total, notice, due, _) =>
      b.(calls := b.calls + [CallDoc(fund, number, notice, due, total, id)])
    case Distribute(_, fund, total, payment, classification, _) =>
      b.(distributions := b.distributions + [DistributionDoc(fund, number, payment, total, classification, id)])
    case _ => b
  }

  /** The checks a capital call or a distribution makes before it posts. */
  function PlanError(w: World, ts: seq<Transfer>, req: Request): Option<Error> {
    match req
    case Call(_, fund, total, notice, _, _) =>
      (match PlanFor(w, fund, total, notice, true)
       case Err(e) => Some(e)
       case Ok(p) => if CommitmentsAllow(w, ts, fund, p.shares) then None else Some(CommitmentExceeded))
    case Distribute(_, fund, total, payment, _, _) =>
      (match PlanFor(w, fund, total, payment, false)
       case Err(e) => Some(e)
       case Ok(_) => None)
    case _ => None
  }

  /** The row checks on a call or distribution document. */
  function DocumentError(req: Request): Option<Error> {
    match req
    case Call(_, _, total, notice, due, _) =>
      if due < notice then Some(IntegrityError(CallDueAfterNotice))
      else if total <= 0 then Some(IntegrityError(CallPositive))
      else None
    case Distribute(_, _, total, _, _, _) =>
      if total <= 0 then Some(IntegrityError(DistributionPositive)) else None
    case _ => None
  }

  /** The books after the create closure of a request, or the error it raises. */
  function Created(w: World, b: Books, req: Request, source: Option<Transfer>): Result<Books, Error>
    requires !req.Close?
  {
    if PlanError(w, b.transfers, req).Some? then Err(PlanError(w, b.transfers, req).value)
    else
      match Posted(w, b, DraftOf(w, req, source))
      case Err(e) => Err(e)
      case Ok(t) =>
        if DocumentError(req).Some? then Err(DocumentError(req).value)
        else Ok(WithDocument(AddTransfer(b, t), req, NextNumber(b, req), |b.transfers|))
  }

  /** A known key replays its transfer, and its document if the request makes one. */
  function Replayed(b: Books, req: Request, i: nat): Response
    requires !req.Close? && i < |b.transfers|
  {
    if b.transfers[i].hash != HashOf(req) then Failed(IdempotencyConflict)
    else if req.Call? && !(exists n :: 0 <= n < |b.calls| && b.calls[n].transfer == i) then Failed(DoesNotExist)
    else if req.Distribute? && !(exists n :: 0 <= n < |b.distributions| && b.distributions[n].transfer == i)
    then Failed(DoesNotExist)
    else Transferred(i, false)
  }

  /** `_run_once`. */
  function RunOnce(w: World, b: Books, req: Request, source: Option<Transfer>): (Books, Response)
    requires !req.Close?
  {
    var i := KeyIndex(b.transfers, req.key);
    if i < |b.transfers| then (b, Replayed(b, req, i))
    else
      match Created(w, b, req, source)
      case Err(e) => (b, Failed(e))
      case Ok(after) => (after, Transferred(|b.transfers|, true))
  }

  // ---- The operations ------------------------------------------------------------------------------------

  /** What `reverse_transfer` decides before it runs under its key. */
  function ReverseError(ts: seq<Transfer>, target: TransferId, key: string): Option<Error> {
    if target >= |ts| then Some(DoesNotExist)
    else if ts[target].kind == Reversal then Some(InvalidTransfer)
    else
      var r := ReversalIndex(ts, target);
      if r < |ts| && ts[r].key != key then Some(AlreadyReversed) else None
  }

  /** Losing the race for `reverses` is reported as an existing reversal. */
  function ReportedError(req: Request, e: Error): Error {
    if req.Reverse? && e == IntegrityError(ReversesUnique) then AlreadyReversed else e
  }

  predicate Earlier(w: World, q: PeriodId, p: PeriodId)
    requires q < |w.periods| && p < |w.periods|
  {
    w.periods[q].fund == w.periods[p].fund && w.periods[q].start < w.periods[p].start
  }

  predicate EarlierClosed(w: World, closed: set<PeriodId>, period: PeriodId)
    requires period < |w.periods|
  {
    forall q: nat :: q < |w.periods| && Earlier(w, q, period) ==> q in closed
  }

  function ClosedBooks(w: World, b: Books, fund: FundId, period: PeriodId): (Books, Response) {
    if period >= |w.periods| || w.periods[period].fund != fund then (b, Failed(DoesNotExist))
    else if period in b.closed then (b, PeriodClosed(false))
    else if !EarlierClosed(w, b.closed, period) then (b, Failed(PeriodNotClosable))
    else if PeriodImbalance(w, b.transfers, period) != 0 then (b, Failed(PeriodNotClosable))
    else (b.(closed := b.closed + {period}), PeriodClosed(true))
  }

  /** The transfer a reversal reads before it runs. */
  function SourceOf(ts: seq<Transfer>, req: Request): Option<Transfer> {
    if req.Reverse? && req.target < |ts| then Some(ts[req.target]) else None
  }

  /** One request run alone against the committed rows. */
  function Execute(w: World, b: Books, req: Request): (Books, Response) {
    match req
    case Close(fund, closing) => ClosedBooks(w, b, fund, closing)
    case PostLegs(_, _, _, legs, _) =>
      if !ValidLegs(legs) then (b, Failed(InvalidTransfer)) else RunOnce(w, b, req, None)
    case Reverse(key, target, _, _) =>
      var refused := ReverseError(b.transfers, target, key);
      if refused.Some? then (b, Failed(refused.value))
      else
        var (after, response) := RunOnce(w, b, req, SourceOf(b.transfers, req));
        (after, if response.Failed? then Failed(ReportedError(req, response.error)) else response)
    case _ => RunOnce(w, b, req, None)
  }

  /** A sequence of requests run one at a time. */
  function ExecuteAll(w: World, b: Books, reqs: seq<Request>): Books {
    if reqs == [] then b
    else Execute(w, ExecuteAll(w, b, reqs[..|reqs| - 1]), reqs[|reqs| - 1]).0
  }

  // ---- Simple postings -----------------------------------------------------------------------------------

  /** `charge_fee`. */
  function FeeRequest(w: World, fund: FundId, key: string, amount: int, on: Date): Result<Request, Error> {
    var period := PeriodFor(w, fund, on);
    if fund !in w.funds then Err(DoesNotExist)
    else if period == |w.periods| then Err(NoPeriod)
    else Ok(PostLegs(key, Fee, period, [
      Leg(GetAccount(w, fund, FeeExpense, BaseCurrency(w, fund)), Debit, amount, None, None),
      Leg(CashAccount(w, fund), Credit, amount, None, None)], on))
  }

  /** `record_valuation`: mark the portfolio up (change > 0) or down (change < 0). */
  function ValuationRequest(w: World, fund: FundId, key: string, change: int, on: Date): Result<Request, Error> {
    var period := PeriodFor(w, fund, on);
    var holding := GetAccount(w, fund, Investments, BaseCurrency(w, fund));
    var gains := GetAccount(w, fund, GainLoss, BaseCurrency(w, fund));
    var amount := if change > 0 then change else -change;
    if change == 0 then Err(InvalidTransfer)
    else if fund !in w.funds then Err(DoesNotExist)
    else if period == |w.periods| then Err(NoPeriod)
    else Ok(PostLegs(key, Adjustment, period, [
      Leg(if change > 0 then holding else gains, Debit, amount, None, None),
      Leg(if change > 0 then gains else holding, Credit, amount, None, None)], on))
  }

  /** `record_investment`: buy a holding in `currency`, paying whole pennies of base-currency cash at the day's rate. */
  function InvestmentRequest(w: World, fund: FundId, key: string, amount: int, currency: Currency, on: Date)
    : Result<Request, Error>
  {
    var period := PeriodFor(w, fund, on);
    var base := BaseCurrency(w, fund);
    var holding := GetAccount(w, fund, Investments, currency);
    var rate := Pricing.FxRateFor(w.rates, currency, base, on);
    if fund !in w.funds then Err(DoesNotExist)
    else if period == |w.periods| then Err(NoPeriod)
    else if currency == base then Ok(PostLegs(key, Investment, period, [
      Leg(holding, Debit, amount, None, None), Leg(CashAccount(w, fund), Credit, amount, None, None)], on))
    else if rate.None? then Err(MissingFxRate)
    else
      var cost := PENNY * Pricing.RoundHalfEven(amount * rate.value.rate, PENNY * Pricing.RATE_SCALE);
      Ok(PostLegs(key, Investment, period, [
        Leg(holding, Debit, amount, Some(rate.value.rate), Some(cost)),
        Leg(CashAccount(w, fund), Credit, cost, None, None)], on))
  }
}
