/**
 * What each operation answers, in every case, in the terms a caller knows (operations/services.py,
 * operations/periods.py, ledger/services.py, ledger/idempotency.py).
 */
module Answers {
  import opened Results
  import opened Sums
  import opened Types
  import opened Chart
  import opened Queries
  import opened Posting
  import opened Operations
  import opened Sorting
  import opened Fingerprints
  import opened Invariants
  import opened Capital
  import opened Commitments
  import opened Safety
  import opened Reconciliation
  import opened Ledgers
  import opened NavEffects
  import opened Acceptance
  import opened Unfunded
  import opened Effects
  import Allocation
  import Pricing

  /** Some transfer carries the key. */
  predicate KeyTaken(b: Books, key: string) { exists i :: 0 <= i < |b.transfers| && b.transfers[i].key == key }

  lemma KeyTakenIff(b: Books, key: string)
    ensures KeyTaken(b, key) <==> KeyIndex(b.transfers, key) < |b.transfers|
  {
    hide KeyIndex;
    if KeyIndex(b.transfers, key) < |b.transfers| {
      assert b.transfers[KeyIndex(b.transfers, key)].key == key;
    }
  }

  /** A taken key replays its transfer, or conflicts if that was made for something else. */
  function ReplayAnswer(b: Books, req: Request): Response
    requires !req.Close? && KeyIndex(b.transfers, req.key) < |b.transfers|
  {
    var i := KeyIndex(b.transfers, req.key);
    if b.transfers[i].hash == HashOf(req) then Transferred(i, false) else Failed(IdempotencyConflict)
  }

  // ---- A planned posting ---------------------------------------------------------------------------------

  lemma NonPositiveShares(w: World, fund: FundId, total: int, on: Date, call: bool)
    requires PlanFor(w, fund, total, on, call).Ok? && total <= 0
    ensures forall i :: 0 <= i < |PlanFor(w, fund, total, on, call).value.shares| ==>
      PlanFor(w, fund, total, on, call).value.shares[i] <= 0
  {
    hide Allocation.Allocated, CommitmentsOf, ShareLegs;
    var items := Items(CommitmentsOf(w, fund));
    Allocation.SucceedsIff(total, items, PENNY);
    forall i | 0 <= i < |items| ensures Allocation.Allocated(total, items, PENNY).value[i] <= 0 {
      Allocation.SharesKeepSign(total, items, PENNY, i);
    }
  }

  /** Splitting nothing, or less, leaves no valid legs. */
  lemma NonPositiveTotalInvalid(w: World, fund: FundId, total: int, on: Date, call: bool)
    requires PlanFor(w, fund, total, on, call).Ok? && total <= 0
    ensures !ValidLegs(PlanFor(w, fund, total, on, call).value.legs)
  {
    hide PlanFor, CommitmentsOf, LpAccount, CashAccount, ShareLegs, Sort;
    var p := PlanFor(w, fund, total, on, call).value;
    var rows := ShareRows(CommitmentsOf(w, fund), p.shares);
    NonPositiveShares(w, fund, total, on, call);
    PlanParts(w, fund, total, on, call);
    ByLpIsTotalOrder();
    SortCorrect(rows, ByLp);
    if p.legs != [] {
      ShareLegsShape(w, fund, Sort(rows, ByLp), call, p.legs[0]);
      var row :| row in Sort(rows, ByLp) && LegOfRow(w, fund, row, p.legs[0]);
      assert row in multiset(rows);
      var k :| 0 <= k < |rows| && rows[k] == row;
      assert p.legs[0].amount <= 0;
    }
  }

  lemma ClosedRefused(w: World, d: Draft)
    requires d.period < |w.periods| && ValidLegs(d.legs) && Pricing.KnownAccounts(w, d.legs)
    ensures Prepare(w, false, d) == Err(ClosedPeriod)
  {
  }

  lemma PostedInOrder(w: World, b: Books, d: Draft)
    requires d.period !in b.closed && Prepare(w, true, d).Ok? && PositiveRows(Prepare(w, true, d).value)
    requires KeyIndex(b.transfers, d.key) == |b.transfers| && ReverseFree(b.transfers, d.reverses)
    ensures Posted(w, b, d) ==
      if !Sufficient(w, b.transfers, d, Prepare(w, true, d).value) then Err(InsufficientFunds)
      else if TransferRowError(d).Some? then Err(TransferRowError(d).value)
      else Ok(Made(d, Prepare(w, true, d).value))
  {
    hide Prepare, PositiveRows, Sufficient, KeyIndex, ReversalIndex, TransferRowError;
  }

  /** Posting a planned call or distribution under a free key. */
  lemma PlannedPosting(w: World, b: Books, fund: FundId, total: int, on: Date, call: bool, d: Draft)
    requires WorldOk(w) && PlanFor(w, fund, total, on, call).Ok?
    requires d.legs == PlanFor(w, fund, total, on, call).value.legs
    requires d.period == PlanFor(w, fund, total, on, call).value.period
    requires d.kind != Reversal && d.reverses == None && KeyIndex(b.transfers, d.key) == |b.transfers|
    ensures var r := Posted(w, b, d);
      if total <= 0 then r == Err(InvalidTransfer)
      else if d.period in b.closed then r == Err(ClosedPeriod)
      else if !call && NativeBalance(b.transfers, CashAccount(w, fund)) < total then r == Err(InsufficientFunds)
      else if d.key == "" then r == Err(IntegrityError(KeyPresent))
      else r.Ok?
  {
    hide WorldOk, PlanFor, Prepare, PositiveRows, KeyIndex, ReversalIndex, NativeBalance, CashAccount, Sufficient;
    hide ValidLegs, PlanEntry;
    PlanParts(w, fund, total, on, call);
    PlannedPeriod(w, fund, total, on, call);
    if total <= 0 {
      NonPositiveTotalInvalid(w, fund, total, on, call);
      InvalidRefused(w, b, d);
    } else if d.period in b.closed {
      PlanLegsValid(w, fund, total, on, call);
      ClosedRefused(w, d);
    } else {
      PlanPrepares(w, fund, total, on, call, d);
      PlanAffordableIff(w, b.transfers, fund, total, on, call, d);
      PostedInOrder(w, b, d);
    }
  }

  lemma PlannedPeriod(w: World, fund: FundId, total: int, on: Date, call: bool)
    requires PlanFor(w, fund, total, on, call).Ok?
    ensures PlanFor(w, fund, total, on, call).value.period < |w.periods|
  {
    hide PlanFor;
  }

  lemma InvalidRefused(w: World, b: Books, d: Draft)
    requires d.period < |w.periods| && !ValidLegs(d.legs)
    ensures Posted(w, b, d) == Err(InvalidTransfer)
  {
    hide ValidLegs;
  }

  // ---- Capital calls -------------------------------------------------------------------------------------

  /** Some partner's share is more than is left of the commitment. */
  ghost predicate Exceeds(w: World, ts: seq<Transfer>, fund: FundId, total: int) {
    exists i :: 0 <= i < |CommitmentsOf(w, fund)| && i < |SharesOf(w, fund, total)| &&
      Contributed(w, ts, LpAccount(w, fund, CommitmentsOf(w, fund)[i].lp)) + SharesOf(w, fund, total)[i]
      > CommitmentsOf(w, fund)[i].committed
  }

  lemma ExceedsIff(w: World, ts: seq<Transfer>, fund: FundId, total: int)
    ensures Exceeds(w, ts, fund, total) <==> !CommitmentsAllow(w, ts, fund, SharesOf(w, fund, total))
  {
    hide CommitmentsOf, Contributed, LpAccount, SharesOf;
  }

  /** What `create_capital_call` answers. */
  lemma CallAnswer(w: World, b: Books, req: Request)
    requires WorldOk(w) && req.Call? && Replayable(b)
    ensures var answer, fund, total := Execute(w, b, req).1, req.fund, req.total;
      if KeyTaken(b, req.key) then
        KeyIndex(b.transfers, req.key) < |b.transfers| && answer == ReplayAnswer(b, req)
      else if fund !in w.funds then answer == Failed(DoesNotExist)
      else if !Covered(w, fund, req.notice) then answer == Failed(NoPeriod)
      else if CommitmentsOf(w, fund) == [] || total % 100 != 0 then answer == Failed(InvalidTransfer)
      else if Exceeds(w, b.transfers, fund, total) then answer == Failed(CommitmentExceeded)
      else if total <= 0 then answer == Failed(InvalidTransfer)
      else if PeriodFor(w, fund, req.notice) in b.closed then answer == Failed(ClosedPeriod)
      else if req.key == "" then answer == Failed(IntegrityError(KeyPresent))
      else if req.due < req.notice then answer == Failed(IntegrityError(CallDueAfterNotice))
      else answer == Transferred(|b.transfers|, true)
  {
    hide WorldOk, Replayable, PlanFor, KeyIndex, Posted, CommitmentsOf, PeriodFor, Covered, Exceeds, HashOf, SharesOf;
    hide CommitmentsAllow;
    KeyTakenIff(b, req.key);
    if KeyTaken(b, req.key) {
      ReplayFinds(b, req, KeyIndex(b.transfers, req.key));
    } else {
      PlanOutcome(w, req.fund, req.total, req.notice, true);
      ExceedsIff(w, b.transfers, req.fund, req.total);
      if PlanFor(w, req.fund, req.total, req.notice, true).Ok? {
        PlannedPosting(w, b, req.fund, req.total, req.notice, true, DraftOf(w, req, None));
      }
    }
  }

  /** A plan, or why there is none. */
  lemma PlanOutcome(w: World, fund: FundId, total: int, on: Date, call: bool)
    requires WorldOk(w)
    ensures var plan := PlanFor(w, fund, total, on, call);
      if fund !in w.funds then plan == Err(DoesNotExist)
      else if !Covered(w, fund, on) then plan == Err(NoPeriod)
      else if CommitmentsOf(w, fund) == [] || total % 100 != 0 then plan == Err(InvalidTransfer)
      else plan.Ok? && plan.value.period == PeriodFor(w, fund, on) && plan.value.shares == SharesOf(w, fund, total)
  {
    hide WorldOk, CommitmentsOf, PeriodFor, Covered, Allocation.Allocated, ShareLegs, SharesOf;
    PeriodFound(w, fund, on);
    PlanMadeIff(w, fund, total, on, call);
  }

  // ---- Distributions -------------------------------------------------------------------------------------

  /** What `create_distribution` answers. */
  lemma DistributionAnswer(w: World, b: Books, req: Request)
    requires WorldOk(w) && req.Distribute? && Replayable(b)
    ensures var answer, fund, total := Execute(w, b, req).1, req.fund, req.total;
      if KeyTaken(b, req.key) then
        KeyIndex(b.transfers, req.key) < |b.transfers| && answer == ReplayAnswer(b, req)
      else if fund !in w.funds then answer == Failed(DoesNotExist)
      else if !Covered(w, fund, req.payment) then answer == Failed(NoPeriod)
      else if CommitmentsOf(w, fund) == [] || total % 100 != 0 || total <= 0 then answer == Failed(InvalidTransfer)
      else if PeriodFor(w, fund, req.payment) in b.closed then answer == Failed(ClosedPeriod)
      else if NativeBalance(b.transfers, CashAccount(w, fund)) < total then answer == Failed(InsufficientFunds)
      else if req.key == "" then answer == Failed(IntegrityError(KeyPresent))
      else answer == Transferred(|b.transfers|, true)
  {
    hide WorldOk, Replayable, PlanFor, KeyIndex, Posted, CommitmentsOf, PeriodFor, Covered, HashOf, SharesOf;
    hide NativeBalance, CashAccount;
    KeyTakenIff(b, req.key);
    if KeyTaken(b, req.key) {
      ReplayFinds(b, req, KeyIndex(b.transfers, req.key));
    } else {
      PlanOutcome(w, req.fund, req.total, req.payment, false);
      if PlanFor(w, req.fund, req.total, req.payment, false).Ok? {
        PlannedPosting(w, b, req.fund, req.total, req.payment, false, DraftOf(w, req, None));
      }
    }
  }

  // ---- Reversals -----------------------------------------------------------------------------------------

  /** Transfer j has been reversed under another key. */
  predicate ReversedByOther(ts: seq<Transfer>, j: TransferId, key: string) {
    exists r :: 0 <= r < |ts| && ts[r].reverses == Some(j) && ts[r].key != key
  }

  /** Some cash account cannot give back what a transfer brought it. */
  ghost predicate CannotGiveBack(w: World, ts: seq<Transfer>, j: TransferId)
    requires j < |ts|
  {
    exists a :: 0 <= a < |w.accounts| && w.accounts[a].kind == Cash && NativeBalance(ts, a) < NativeOn(ts[j].entries, a)
  }

  lemma ReversedByOtherIff(ts: seq<Transfer>, j: TransferId, key: string)
    requires UniqueReversals(ts)
    ensures ReversedByOther(ts, j, key) <==> ReversalIndex(ts, j) < |ts| && ts[ReversalIndex(ts, j)].key != key
  {
    hide ReversalIndex;
  }

  /** Posting the flipped legs of a sound transfer nobody has reversed, under a free key. */
  lemma ReversalPosting(w: World, b: Books, d: Draft)
    requires LedgerOk(w, b.transfers) && DraftFits(b.transfers, d) && d.reverses.Some? && d.kind == Reversal
    requires KeyIndex(b.transfers, d.key) == |b.transfers| && ReverseFree(b.transfers, d.reverses)
    ensures d.reverses.value < |b.transfers| && b.transfers[d.reverses.value].period < |w.periods|
    ensures var j, r := d.reverses.value, Posted(w, b, d);
      if d.period >= |w.periods| then r == Err(DoesNotExist)
      else if d.period in b.closed then r == Err(ClosedPeriod)
      else if w.periods[d.period].fund != w.periods[b.transfers[j].period].fund then r == Err(InvalidTransfer)
      else if CannotGiveBack(w, b.transfers, j) then r == Err(InsufficientFunds)
      else if d.key == "" then r == Err(IntegrityError(KeyPresent))
      else r.Ok?
  {
    hide LedgerOk, Prepare, PositiveRows, KeyIndex, ReversalIndex, NativeBalance, NativeOn, Sufficient, ValidLegs;
    var j := d.reverses.value;
    var t := b.transfers[j];
    SoundTransfer(w, b.transfers, j);
    FlippedLegsValid(w, w.periods[t.period].fund, t.entries);
    if d.period >= |w.periods| {
      NoSuchPeriod(w, b, d);
    } else if d.period in b.closed {
      ClosedRefused(w, d);
    } else if w.periods[d.period].fund != w.periods[t.period].fund {
      OtherFundRefused(w, d);
    } else {
      ReversalPrepares(w, t, d);
      GivesBackIff(w, b.transfers, d, t);
      PostedInOrder(w, b, d);
    }
  }

  lemma NoSuchPeriod(w: World, b: Books, d: Draft)
    requires d.period >= |w.periods|
    ensures Posted(w, b, d) == Err(DoesNotExist)
  {
  }

  lemma OtherFundRefused(w: World, d: Draft)
    requires d.period < |w.periods| && ValidLegs(d.legs) && Pricing.KnownAccounts(w, d.legs)
    requires w.accounts[d.legs[0].account].fund != w.periods[d.period].fund
    ensures Prepare(w, true, d) == Err(InvalidTransfer)
  {
  }

  lemma ReversalDraftFits(w: World, b: Books, req: Request)
    requires req.Reverse? && req.target < |b.transfers| && b.transfers[req.target].kind != Reversal
    ensures DraftFits(b.transfers, DraftOf(w, req, SourceOf(b.transfers, req)))
  {
  }

  /** What `reverse_transfer` answers, over a sound ledger. */
  lemma ReversalAnswer(w: World, b: Books, req: Request)
    requires LedgerOk(w, b.transfers) && Replayable(b) && req.Reverse?
    ensures req.target < |b.transfers| ==> b.transfers[req.target].period < |w.periods|
    ensures var answer, j := Execute(w, b, req).1, req.target;
      if j >= |b.transfers| then answer == Failed(DoesNotExist)
      else if b.transfers[j].kind == Reversal then answer == Failed(InvalidTransfer)
      else if ReversedByOther(b.transfers, j, req.key) then answer == Failed(AlreadyReversed)
      else if KeyTaken(b, req.key) then
        KeyIndex(b.transfers, req.key) < |b.transfers| && answer == ReplayAnswer(b, req)
      else if req.period >= |w.periods| then answer == Failed(DoesNotExist)
      else if req.period in b.closed then answer == Failed(ClosedPeriod)
      else if w.periods[req.period].fund != w.periods[b.transfers[j].period].fund then answer == Failed(InvalidTransfer)
      else if CannotGiveBack(w, b.transfers, j) then answer == Failed(InsufficientFunds)
      else if req.key == "" then answer == Failed(IntegrityError(KeyPresent))
      else answer == Transferred(|b.transfers|, true)
  {
    hide LedgerOk, Replayable, KeyIndex, ReversalIndex, Posted, HashOf, CannotGiveBack, ReversedByOther;
    KeyTakenIff(b, req.key);
    LedgerParts(w, b.transfers);
    ReversedByOtherIff(b.transfers, req.target, req.key);
    if req.target < |b.transfers| {
      SoundTransfer(w, b.transfers, req.target);
      if KeyTaken(b, req.key) {
        ReplayFinds(b, req, KeyIndex(b.transfers, req.key));
      } else if ReverseError(b.transfers, req.target, req.key).None? {
        ReversalDraftFits(w, b, req);
        ReversalPosting(w, b, DraftOf(w, req, SourceOf(b.transfers, req)));
      }
    }
  }

  // ---- Closing -------------------------------------------------------------------------------------------

  /** A period of the same fund that starts earlier is open. */
  predicate EarlierOpen(w: World, closed: set<PeriodId>, period: PeriodId)
    requires period < |w.periods|
  {
    exists q: nat :: q < |w.periods| && q !in closed && w.periods[q].fund == w.periods[period].fund
      && w.periods[q].start < w.periods[period].start
  }

  /** What `close_period` answers, and the only change it makes. */
  lemma CloseAnswer(w: World, b: Books, fund: FundId, period: PeriodId)
    requires LedgerOk(w, b.transfers)
    ensures var (after, answer) := Execute(w, b, Close(fund, period));
      if period >= |w.periods| || w.periods[period].fund != fund then answer == Failed(DoesNotExist) && after == b
      else if period in b.closed then answer == PeriodClosed(false) && after == b
      else if EarlierOpen(w, b.closed, period) then answer == Failed(PeriodNotClosable) && after == b
      else answer == PeriodClosed(true) && after == b.(closed := b.closed + {period})
  {
    hide LedgerOk, PeriodImbalance;
    BooksBalanceAtEveryGrain(w, b.transfers, period, fund);
  }

  // ---- Plain postings in the base currency ---------------------------------------------------------------

  /** Two legs or more, all of positive amounts, debits and credits only and some of each. */
  predicate ProperLegs(legs: seq<Leg>) {
    && |legs| >= 2
    && (forall l :: l in legs ==> l.amount > 0 && (l.direction == Debit || l.direction == Credit))
    && (exists l :: l in legs && l.direction == Debit) && (exists l :: l in legs && l.direction == Credit)
  }

  lemma ProperIff(legs: seq<Leg>)
    ensures ProperLegs(legs) <==> ValidLegs(legs)
  {
    if ValidLegs(legs) {
      var i :| 0 <= i < |legs| && legs[i].direction == Debit;
      var j :| 0 <= j < |legs| && legs[j].direction == Credit;
      assert legs[i] in legs && legs[j] in legs;
      forall l | l in legs ensures l.amount > 0 && (l.direction == Debit || l.direction == Credit) {
        var k :| 0 <= k < |legs| && legs[k] == l;
      }
    }
    if ProperLegs(legs) {
      forall i | 0 <= i < |legs| ensures !legs[i].direction.Unknown? && legs[i].amount > 0 {
        assert legs[i] in legs;
      }
    }
  }

  /** Some cash account cannot pay for its legs, netted. */
  ghost predicate CannotPay(w: World, ts: seq<Transfer>, legs: seq<Leg>) {
    exists a: AccountId :: TooLow(w, ts, legs, a)
  }

  predicate TooLow(w: World, ts: seq<Transfer>, legs: seq<Leg>, a: AccountId) {
    && a < |w.accounts| && w.accounts[a].kind == Cash
    && LegsOn(legs, a) < 0 && NativeBalance(ts, a) + LegsOn(legs, a) < 0
  }

  /** Legs without base amounts on accounts that, if they exist, are in the base currency of the period's fund. */
  predicate InBaseCurrency(w: World, period: PeriodId, legs: seq<Leg>) {
    && (forall i :: 0 <= i < |legs| ==> legs[i].base.None?)
    && (period < |w.periods| ==>
          forall i :: 0 <= i < |legs| && legs[i].account < |w.accounts| ==>
            w.accounts[legs[i].account].currency == BaseCurrency(w, w.periods[period].fund))
  }

  lemma BaseLegsPrepare(w: World, d: Draft)
    requires d.period < |w.periods| && ValidLegs(d.legs) && Pricing.KnownAccounts(w, d.legs)
    requires SameFund(w, d.period, d.legs) && InBaseCurrency(w, d.period, d.legs)
    ensures var r := Prepare(w, true, d);
      if NetOf(d.legs) != 0 then r == Err(UnbalancedTransfer)
      else r.Ok? && PositiveRows(r.value) && |r.value| == |d.legs|
           && forall i :: 0 <= i < |d.legs| ==> BooksLeg(r.value[i], d.legs[i])
  {
    hide Pricing.Price, NetOf, Imbalance;
    var fund := w.periods[d.period].fund;
    BaseLegsAtFaceValue(w, fund, d.fxDate, d.legs);
    var entries := Pricing.Price(w, BaseCurrency(w, fund), d.fxDate, d.legs).value;
    EntriesNet(entries, d.legs);
    forall i | 0 <= i < |d.legs| ensures entries[i] == FaceValue(w, fund, d.legs[i]) {
      BaseLegAtFaceValue(w, BaseCurrency(w, fund), d.fxDate, d.legs, i);
    }
  }

  lemma CannotPayIff(w: World, ts: seq<Transfer>, d: Draft)
    requires Prepare(w, true, d).Ok? && |Prepare(w, true, d).value| == |d.legs|
    requires forall i :: 0 <= i < |d.legs| ==> BooksLeg(Prepare(w, true, d).value[i], d.legs[i])
    ensures Sufficient(w, ts, d, Prepare(w, true, d).value) <==> !CannotPay(w, ts, d.legs)
  {
    hide Prepare, NativeBalance, NativeOn, LegsOn, Sufficient;
    var entries := Prepare(w, true, d).value;
    SufficientIff(w, ts, true, d);
    forall a: AccountId ensures NativeOn(entries, a) == LegsOn(d.legs, a) {
      EntriesOnLegs(entries, d.legs, a);
    }
    forall a: AccountId ensures Affordable(w, ts, entries, a) <==> !TooLow(w, ts, d.legs, a) {
      assert NativeOn(entries, a) == LegsOn(d.legs, a);
    }
    hide Affordable, TooLow;
    if a: AccountId :| TooLow(w, ts, d.legs, a) {
      assert !Affordable(w, ts, entries, a);
    }
  }

  lemma PostingRefused(w: World, b: Books, d: Draft)
    requires d.period < |w.periods| && ValidLegs(d.legs)
    ensures !Pricing.KnownAccounts(w, d.legs) ==> Posted(w, b, d) == Err(UnknownAccount)
    ensures Pricing.KnownAccounts(w, d.legs) && d.period in b.closed ==> Posted(w, b, d) == Err(ClosedPeriod)
    ensures Pricing.KnownAccounts(w, d.legs) && d.period !in b.closed && !SameFund(w, d.period, d.legs) ==>
      Posted(w, b, d) == Err(InvalidTransfer)
  {
    hide ValidLegs, Pricing.Price;
  }

  /** What `post_transfer_idempotent` answers for legs in the base currency of the period's fund. */
  lemma PostAnswer(w: World, b: Books, req: Request)
    requires req.PostLegs? && Replayable(b) && InBaseCurrency(w, req.period, req.legs)
    ensures var answer, legs := Execute(w, b, req).1, req.legs;
      if !ProperLegs(legs) then answer == Failed(InvalidTransfer)
      else if KeyTaken(b, req.key) then
        KeyIndex(b.transfers, req.key) < |b.transfers| && answer == ReplayAnswer(b, req)
      else if req.period >= |w.periods| then answer == Failed(DoesNotExist)
      else if exists l :: l in legs && l.account >= |w.accounts| then answer == Failed(UnknownAccount)
      else if req.period in b.closed then answer == Failed(ClosedPeriod)
      else if exists l :: l in legs && w.accounts[l.account].fund != w.periods[req.period].fund then
        answer == Failed(InvalidTransfer)
      else if NetOf(legs) != 0 then answer == Failed(UnbalancedTransfer)
      else if CannotPay(w, b.transfers, legs) then answer == Failed(InsufficientFunds)
      else if req.key == "" then answer == Failed(IntegrityError(KeyPresent))
      else if req.kind == Reversal then answer == Failed(IntegrityError(ReversalShape))
      else answer == Transferred(|b.transfers|, true)
  {
    hide Replayable, KeyIndex, Posted, HashOf, NetOf, CannotPay, ValidLegs, Prepare, InBaseCurrency, PositiveRows;
    hide Sufficient;
    ProperIff(req.legs);
    KeyTakenIff(b, req.key);
    if ValidLegs(req.legs) {
      if KeyTaken(b, req.key) {
        ReplayFinds(b, req, KeyIndex(b.transfers, req.key));
      } else {
        PostAnswerWithoutKey(w, b, DraftOf(w, req, None));
      }
    }
  }

  lemma PostAnswerWithoutKey(w: World, b: Books, d: Draft)
    requires ValidLegs(d.legs) && d.reverses == None && InBaseCurrency(w, d.period, d.legs)
    requires KeyIndex(b.transfers, d.key) == |b.transfers|
    ensures var r, legs := Posted(w, b, d), d.legs;
      if d.period >= |w.periods| then r == Err(DoesNotExist)
      else if exists l :: l in legs && l.account >= |w.accounts| then r == Err(UnknownAccount)
      else if d.period in b.closed then r == Err(ClosedPeriod)
      else if exists l :: l in legs && w.accounts[l.account].fund != w.periods[d.period].fund then
        r == Err(InvalidTransfer)
      else if NetOf(legs) != 0 then r == Err(UnbalancedTransfer)
      else if CannotPay(w, b.transfers, legs) then r == Err(InsufficientFunds)
      else if d.key == "" then r == Err(IntegrityError(KeyPresent))
      else if d.kind == Reversal then r == Err(IntegrityError(ReversalShape))
      else r.Ok?
  {
    hide KeyIndex, NetOf, CannotPay, ValidLegs, Prepare, InBaseCurrency, PositiveRows, Sufficient, ReversalIndex;
    if d.period >= |w.periods| {
      NoSuchPeriod(w, b, d);
    } else {
      LegsKnownIff(w, d);
      PostingRefused(w, b, d);
      if Pricing.KnownAccounts(w, d.legs) && d.period !in b.closed && SameFund(w, d.period, d.legs) {
        BaseLegsPrepare(w, d);
        if NetOf(d.legs) == 0 {
          CannotPayIff(w, b.transfers, d);
          PostedInOrder(w, b, d);
        }
      }
    }
  }

  lemma LegsKnownIff(w: World, d: Draft)
    requires d.period < |w.periods|
    ensures Pricing.KnownAccounts(w, d.legs) <==> !exists l :: l in d.legs && l.account >= |w.accounts|
    ensures Pricing.KnownAccounts(w, d.legs) ==>
      (SameFund(w, d.period, d.legs) <==>
         !exists l :: l in d.legs && w.accounts[l.account].fund != w.periods[d.period].fund)
  {
    if !Pricing.KnownAccounts(w, d.legs) {
      var i :| 0 <= i < |d.legs| && d.legs[i].account >= |w.accounts|;
      assert d.legs[i] in d.legs;
    } else if !SameFund(w, d.period, d.legs) {
      var i :| 0 <= i < |d.legs| && w.accounts[d.legs[i].account].fund != w.periods[d.period].fund;
      assert d.legs[i] in d.legs;
    }
  }
}
