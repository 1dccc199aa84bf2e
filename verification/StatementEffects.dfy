/**
 * What accepted requests do to the columns of partners' statements, period by period (operations/services.py,
 * operations/statements.py).
 */
module StatementEffects {
  import opened Results
  import opened Sums
  import opened Types
  import opened Chart
  import opened Queries
  import opened Posting
  import opened Operations
  import opened Invariants
  import opened Capital
  import opened Commitments
  import opened Safety
  import opened Statements
  import opened NavEffects
  import opened Acceptance
  import opened Unfunded
  import opened Effects

  // ---- One more transfer ---------------------------------------------------------------------------------

  /** A transfer moves the column of its effective type, in its own period only. */
  lemma ColumnsMove(w: World, ts: seq<Transfer>, t: Transfer, fund: FundId, i: nat, p: PeriodId)
    requires PointsBack(ts) && i < |CommitmentsOf(w, fund)|
    ensures var before, after := MovementOf(w, ts, fund, i, p), MovementOf(w, ts + [t], fund, i, p);
      var booked := if t.period == p then BaseIn(t.entries, {Partner(w, fund, i)}) else 0;
      var kind := EffectiveKind(ts + [t], t);
      && after.contributions == before.contributions - (if kind == CapitalCall then booked else 0)
      && after.distributions == before.distributions + (if kind == Distribution then booked else 0)
      && after.other == before.other - (if kind != CapitalCall && kind != Distribution then booked else 0)
  {
    hide BaseSum, BaseIn, PointsBack, CommitmentsOf, LpAccount, ShareOf, FundTotal, EffectiveKind;
    var a := {Partner(w, fund, i)};
    BaseSumAppend(ts, t, a, {p}, {CapitalCall});
    BaseSumAppend(ts, t, a, {p}, {Distribution});
    BaseSumAppend(ts, t, a, {p}, OtherKinds);
    OtherKind(EffectiveKind(ts + [t], t));
  }

  lemma OtherKind(k: TransferType)
    ensures k in OtherKinds <==> k != CapitalCall && k != Distribution
  {
    assert k.CapitalCall? || k.Distribution? || k.Fee? || k.Investment? || k.Reversal? || k.Adjustment?;
  }

  /** The fund's gains and fees of a period move by what the transfer books on those accounts in it. */
  lemma FundTotalsMove(w: World, ts: seq<Transfer>, t: Transfer, fund: FundId, kind: AccountType, p: PeriodId)
    requires PointsBack(ts)
    ensures FundTotal(w, ts + [t], fund, kind, p) == FundTotal(w, ts, fund, kind, p)
      + if t.period == p then BaseIn(t.entries, FundAccounts(w, fund, {kind})) else 0
  {
    hide BaseSum, BaseIn, PointsBack, FundAccounts;
    BaseSumAppend(ts, t, FundAccounts(w, fund, {kind}), {p}, AllKinds);
    var k := EffectiveKind(ts + [t], t);
    assert k.CapitalCall? || k.Distribution? || k.Fee? || k.Investment? || k.Reversal? || k.Adjustment?;
  }

  ghost predicate CashAndCapitalOnly(w: World, entries: seq<Entry>) {
    forall e :: e in entries ==>
      e.account < |w.accounts| && (w.accounts[e.account].kind == Cash || w.accounts[e.account].kind == LpCapital)
  }

  /** A transfer on cash and capital alone leaves every partner's allocated gains and fees as they were. */
  lemma AllocationsStay(w: World, ts: seq<Transfer>, t: Transfer, fund: FundId, i: nat, p: PeriodId)
    requires PointsBack(ts) && i < |CommitmentsOf(w, fund)| && CashAndCapitalOnly(w, t.entries)
    ensures var before, after := MovementOf(w, ts, fund, i, p), MovementOf(w, ts + [t], fund, i, p);
      after.gains == before.gains && after.fees == before.fees
  {
    UntouchedIsZero(t.entries, FundAccounts(w, fund, {GainLoss}));
    UntouchedIsZero(t.entries, FundAccounts(w, fund, {FeeExpense}));
    hide BaseSum, BaseIn, PointsBack, CommitmentsOf, LpAccount, ShareOf, FundAccounts, FundTotal;
    FundTotalsMove(w, ts, t, fund, GainLoss, p);
    FundTotalsMove(w, ts, t, fund, FeeExpense, p);
  }

  ghost predicate LegsOnCashAndCapital(w: World, legs: seq<Leg>) {
    forall l :: l in legs ==>
      l.account < |w.accounts| && (w.accounts[l.account].kind == Cash || w.accounts[l.account].kind == LpCapital)
  }

  lemma BookedOnCashAndCapital(w: World, entries: seq<Entry>, legs: seq<Leg>)
    requires |entries| == |legs| && forall i :: 0 <= i < |entries| ==> BooksLeg(entries[i], legs[i])
    requires LegsOnCashAndCapital(w, legs)
    ensures CashAndCapitalOnly(w, entries)
  {
    forall e | e in entries
      ensures e.account < |w.accounts|
      ensures w.accounts[e.account].kind == Cash || w.accounts[e.account].kind == LpCapital
    {
      var k :| 0 <= k < |entries| && entries[k] == e;
      assert BooksLeg(entries[k], legs[k]) && legs[k] in legs;
    }
  }

  lemma FlippedOnCashAndCapital(w: World, entries: seq<Entry>)
    requires CashAndCapitalOnly(w, entries)
    ensures LegsOnCashAndCapital(w, FlippedLegs(entries))
  {
    var legs := FlippedLegs(entries);
    forall l | l in legs
      ensures l.account < |w.accounts|
      ensures w.accounts[l.account].kind == Cash || w.accounts[l.account].kind == LpCapital
    {
      var k :| 0 <= k < |legs| && legs[k] == l;
      assert entries[k] in entries;
    }
  }

  lemma PlannedOnCashAndCapital(w: World, b: Books, req: Request)
    requires WorldOk(w) && (req.Call? || req.Distribute?) && JustCreated(w, b, req)
    ensures Posted(w, b, DraftOf(w, req, SourceOf(b.transfers, req))).Ok?
    ensures CashAndCapitalOnly(w, NewTransfer(w, b, req).entries)
  {
    hide WorldOk, Execute, Posted, PlanFor, Prepare, HashOf, PlanError, CashAndCapitalOnly, JustCreated;
    hide LegsOnCashAndCapital, BaseLegs, Created;
    var d := DraftOf(w, req, None);
    AcceptedParts(w, b, req);
    PostedParts(w, b, d);
    PreparedEntries(w, true, d);
    var on := if req.Call? then req.notice else req.payment;
    assert PlanFor(w, req.fund, req.total, on, req.Call?).Ok? by {
      PlanOfAccepted(w, b, req);
    }
    PlanOnCashAndCapital(w, req.fund, req.total, on, req.Call?);
    BookedOnCashAndCapital(w, NewTransfer(w, b, req).entries, d.legs);
  }

  lemma PlanOnCashAndCapital(w: World, fund: FundId, total: int, on: Date, call: bool)
    requires WorldOk(w) && PlanFor(w, fund, total, on, call).Ok?
    ensures LegsOnCashAndCapital(w, PlanFor(w, fund, total, on, call).value.legs)
  {
    hide WorldOk, PlanFor, BaseLegs;
    PlanLegsShape(w, fund, total, on, call);
  }

  lemma PlanOfAccepted(w: World, b: Books, req: Request)
    requires (req.Call? || req.Distribute?) && PlanError(w, b.transfers, req).None?
    ensures PlanFor(w, req.fund, req.total, if req.Call? then req.notice else req.payment, req.Call?).Ok?
  {
    hide PlanFor, CommitmentsAllow;
  }

  // ---- Calls and distributions ---------------------------------------------------------------------------

  /** An accepted call or distribution has a plan, for a period of its own fund. */
  lemma AcceptedPlan(w: World, b: Books, req: Request)
    requires WorldOk(w) && (req.Call? || req.Distribute?) && JustCreated(w, b, req)
    ensures var plan := PlanFor(w, req.fund, req.total, if req.Call? then req.notice else req.payment, req.Call?);
      && plan.Ok? && plan.value.shares == SharesOf(w, req.fund, req.total)
    ensures |SharesOf(w, req.fund, req.total)| == |CommitmentsOf(w, req.fund)|
    ensures PeriodOf(w, req) < |w.periods| && w.periods[PeriodOf(w, req)].fund == req.fund
  {
    hide WorldOk, Execute, Posted, PlanFor, CommitmentsOf, SharesOf, PeriodFor, DraftOf, JustCreated, CanSplit;
    hide PlanError;
    var on := if req.Call? then req.notice else req.payment;
    CreatedAsAsked(w, b, req);
    AcceptedParts(w, b, req);
    PlanOfAccepted(w, b, req);
    PlanMadeIff(w, req.fund, req.total, on, req.Call?);
    PlanSize(w, req.fund, req.total, on, req.Call?);
    PeriodForFund(w, req.fund, on);
  }

  /** What an accepted call or distribution books on each partner, debit-positive. */
  lemma PlanBooked(w: World, b: Books, req: Request, fund: FundId, i: nat)
    requires WorldOk(w) && (req.Call? || req.Distribute?) && JustCreated(w, b, req) && i < |CommitmentsOf(w, fund)|
    ensures Posted(w, b, DraftOf(w, req, SourceOf(b.transfers, req))).Ok?
    ensures |SharesOf(w, req.fund, req.total)| == |CommitmentsOf(w, req.fund)|
    ensures BaseIn(NewTransfer(w, b, req).entries, {Partner(w, fund, i)}) ==
      if fund != req.fund then 0
      else if req.Call? then -SharesOf(w, req.fund, req.total)[i] else SharesOf(w, req.fund, req.total)[i]
  {
    hide WorldOk, Execute, Posted, PlanFor, BaseIn, CommitmentsOf, LpAccount, SharesOf, PeriodFor, DraftOf, Created;
    AcceptedPlan(w, b, req);
    CreatedAsAsked(w, b, req);
    if fund != req.fund {
      OffOtherFunds(w, b, req, fund, i);
    } else if req.Distribute? {
      DistributionDebitsShares(w, b, req, i);
    } else {
      CreatedFrom(w, b, req);
      CallCreditsShares(w, b, req, i);
    }
  }

  /**
   * An accepted distribution raises each partner's distributions by exactly the share, in the period covering the
   * payment date; every other column, period and fund stays as it was.
   */
  lemma DistributionMovesStatements(w: World, b: Books, req: Request, fund: FundId, i: nat, p: PeriodId)
    requires WorldOk(w) && req.Distribute? && JustCreated(w, b, req) && PointsBack(b.transfers)
    requires i < |CommitmentsOf(w, fund)|
    ensures |SharesOf(w, req.fund, req.total)| == |CommitmentsOf(w, req.fund)|
    ensures var before := MovementOf(w, b.transfers, fund, i, p);
      MovementOf(w, Execute(w, b, req).0.transfers, fund, i, p) ==
        if fund == req.fund && p == PeriodFor(w, req.fund, req.payment)
        then before.(distributions := before.distributions + SharesOf(w, req.fund, req.total)[i])
        else before
  {
    hide WorldOk, Execute, Posted, BaseIn, MovementOf, CommitmentsOf, LpAccount, PointsBack, JustCreated;
    hide SharesOf, PeriodFor, DraftOf, HashOf;
    PlanBooked(w, b, req, fund, i);
    CreatedAsAsked(w, b, req);
    PlannedOnCashAndCapital(w, b, req);
    ColumnsMove(w, b.transfers, NewTransfer(w, b, req), fund, i, p);
    AllocationsStay(w, b.transfers, NewTransfer(w, b, req), fund, i, p);
  }

  lemma PlanSize(w: World, fund: FundId, total: int, on: Date, call: bool)
    requires PlanFor(w, fund, total, on, call).Ok?
    ensures |PlanFor(w, fund, total, on, call).value.shares| == |CommitmentsOf(w, fund)|
  {
    hide PlanFor;
  }

  /** Nothing is booked on another fund's partners. */
  lemma OffOtherFunds(w: World, b: Books, req: Request, fund: FundId, i: nat)
    requires WorldOk(w) && !req.Close? && Posted(w, b, DraftOf(w, req, SourceOf(b.transfers, req))).Ok?
    requires NewTransfer(w, b, req).period < |w.periods| && w.periods[NewTransfer(w, b, req).period].fund != fund
    requires i < |CommitmentsOf(w, fund)|
    ensures BaseIn(NewTransfer(w, b, req).entries, {Partner(w, fund, i)}) == 0
  {
    hide WorldOk, Posted, Prepare, DraftOf, CommitmentsOf, LpAccount, BaseIn;
    var d := DraftOf(w, req, SourceOf(b.transfers, req));
    PostedParts(w, b, d);
    PreparedEntries(w, true, d);
    assert CommitmentsOf(w, fund)[i] in CommitmentsOf(w, fund);
    PartnerAccount(w, fund, CommitmentsOf(w, fund)[i]);
    var entries := NewTransfer(w, b, req).entries;
    forall e | e in entries ensures e.account != Partner(w, fund, i) {
      var k :| 0 <= k < |entries| && entries[k] == e;
      assert EntryOk(w, w.periods[d.period].fund, entries[k]);
    }
    UntouchedIsZero(entries, {Partner(w, fund, i)});
  }

  /**
   * An accepted call raises each partner's contributions by exactly the share, in the period covering the notice
   * date; every other column, period and fund stays as it was.
   */
  lemma CallMovesStatements(w: World, b: Books, req: Request, fund: FundId, i: nat, p: PeriodId)
    requires WorldOk(w) && req.Call? && JustCreated(w, b, req) && PointsBack(b.transfers)
    requires i < |CommitmentsOf(w, fund)|
    ensures |SharesOf(w, req.fund, req.total)| == |CommitmentsOf(w, req.fund)|
    ensures var before := MovementOf(w, b.transfers, fund, i, p);
      MovementOf(w, Execute(w, b, req).0.transfers, fund, i, p) ==
        if fund == req.fund && p == PeriodFor(w, req.fund, req.notice)
        then before.(contributions := before.contributions + SharesOf(w, req.fund, req.total)[i])
        else before
  {
    hide WorldOk, Execute, Posted, BaseIn, MovementOf, CommitmentsOf, LpAccount, PointsBack, JustCreated;
    hide SharesOf, PeriodFor, DraftOf, HashOf;
    PlanBooked(w, b, req, fund, i);
    CreatedAsAsked(w, b, req);
    PlannedOnCashAndCapital(w, b, req);
    ColumnsMove(w, b.transfers, NewTransfer(w, b, req), fund, i, p);
    AllocationsStay(w, b.transfers, NewTransfer(w, b, req), fund, i, p);
  }

  // ---- Reversals -----------------------------------------------------------------------------------------

  /** What transfer j books on a partner, debit-positive. */
  function BookedOn(w: World, ts: seq<Transfer>, j: nat, fund: FundId, i: nat): int
    requires j < |ts| && i < |CommitmentsOf(w, fund)|
  {
    BaseIn(ts[j].entries, {Partner(w, fund, i)})
  }

  /**
   * An accepted reversal takes its target back, in the reversal's own period, from the very column the target was
   * shown in, and from the fund's gains and fees.
   */
  lemma ReversalMovesStatements(w: World, b: Books, req: Request, fund: FundId, i: nat, p: PeriodId)
    requires WorldOk(w) && req.Reverse? && JustCreated(w, b, req) && LedgerOk(w, b.transfers)
    requires i < |CommitmentsOf(w, fund)|
    ensures req.target < |b.transfers|
    ensures var before := MovementOf(w, b.transfers, fund, i, p);
      var after := MovementOf(w, Execute(w, b, req).0.transfers, fund, i, p);
      var kind := b.transfers[req.target].kind;
      var back := if p == req.period then BookedOn(w, b.transfers, req.target, fund, i) else 0;
      && after.contributions == before.contributions + (if kind == CapitalCall then back else 0)
      && after.distributions == before.distributions - (if kind == Distribution then back else 0)
      && after.other == before.other + (if kind != CapitalCall && kind != Distribution then back else 0)
    ensures forall kind ::
      FundTotal(w, Execute(w, b, req).0.transfers, fund, kind, p) == FundTotal(w, b.transfers, fund, kind, p)
      - if p == req.period then BaseIn(b.transfers[req.target].entries, FundAccounts(w, fund, {kind})) else 0
  {
    hide WorldOk, Execute, Posted, BaseIn, MovementOf, CommitmentsOf, LpAccount, PointsBack, LedgerOk, Created;
    hide FundAccounts, FundTotal, HashOf;
    CreatedFrom(w, b, req);
    CreatedAsAsked(w, b, req);
    LedgerParts(w, b.transfers);
    TransfersPointBack(w, b.transfers);
    var d := DraftOf(w, req, SourceOf(b.transfers, req));
    var t := NewTransfer(w, b, req);
    ReversalFlips(w, b, d, {Partner(w, fund, i)});
    ColumnsMove(w, b.transfers, t, fund, i, p);
    assert EffectiveKind(b.transfers + [t], t) == b.transfers[req.target].kind;
    forall kind
      ensures FundTotal(w, b.transfers + [t], fund, kind, p) == FundTotal(w, b.transfers, fund, kind, p)
        - if p == req.period then BaseIn(b.transfers[req.target].entries, FundAccounts(w, fund, {kind})) else 0
    {
      FundTotalsMove(w, b.transfers, t, fund, kind, p);
      ReversalFlips(w, b, d, FundAccounts(w, fund, {kind}));
    }
  }

  /**
   * Reversing an accepted distribution, whenever, takes each partner's share back from distributions in the
   * reversal's period and changes nothing else on any statement.
   */
  lemma ReversedDistribution(w: World, b: Books, paid: Request, later: Books, undo: Request, fund: FundId, i: nat,
                             p: PeriodId)
    requires WorldOk(w) && paid.Distribute? && JustCreated(w, b, paid)
    requires Extends(Execute(w, b, paid).0, later) && LedgerOk(w, later.transfers)
    requires undo.Reverse? && undo.target == |b.transfers| && JustCreated(w, later, undo)
    requires i < |CommitmentsOf(w, fund)|
    ensures |SharesOf(w, paid.fund, paid.total)| == |CommitmentsOf(w, paid.fund)|
    ensures var before := MovementOf(w, later.transfers, fund, i, p);
      MovementOf(w, Execute(w, later, undo).0.transfers, fund, i, p) ==
        if fund == paid.fund && p == undo.period
        then before.(distributions := before.distributions - SharesOf(w, paid.fund, paid.total)[i])
        else before
  {
    hide WorldOk, Execute, Posted, BaseIn, MovementOf, CommitmentsOf, LpAccount, PointsBack, LedgerOk, PlanFor;
    hide SharesOf, FundAccounts, DraftOf, PeriodFor, JustCreated, Extends;
    PlanBooked(w, b, paid, fund, i);
    PlannedOnCashAndCapital(w, b, paid);
    StaysBooked(w, b, paid, later);
    ReversalMovesStatements(w, later, undo, fund, i, p);
    CreatedAsAsked(w, later, undo);
    ReversedStaysOnCash(w, later, undo);
    LedgerParts(w, later.transfers);
    TransfersPointBack(w, later.transfers);
    AllocationsStay(w, later.transfers, NewTransfer(w, later, undo), fund, i, p);
  }

  lemma StaysBooked(w: World, b: Books, paid: Request, later: Books)
    requires WorldOk(w) && JustCreated(w, b, paid) && paid.Distribute? && Extends(Execute(w, b, paid).0, later)
    ensures Posted(w, b, DraftOf(w, paid, SourceOf(b.transfers, paid))).Ok?
    ensures |b.transfers| < |later.transfers| && later.transfers[|b.transfers|] == NewTransfer(w, b, paid)
    ensures later.transfers[|b.transfers|].kind == Distribution
  {
    hide WorldOk, Execute, Posted, DraftOf, JustCreated, PeriodFor, HashOf;
    CreatedAsAsked(w, b, paid);
    var n := |b.transfers|;
    assert later.transfers[n] == later.transfers[..n + 1][n];
  }

  lemma ReversedStaysOnCash(w: World, b: Books, undo: Request)
    requires LedgerOk(w, b.transfers) && undo.Reverse? && JustCreated(w, b, undo) && undo.target < |b.transfers|
    requires CashAndCapitalOnly(w, b.transfers[undo.target].entries)
    ensures Posted(w, b, DraftOf(w, undo, SourceOf(b.transfers, undo))).Ok?
    ensures CashAndCapitalOnly(w, NewTransfer(w, b, undo).entries)
  {
    hide Execute, Posted, LedgerOk, Prepare, Created, HashOf, JustCreated, CashAndCapitalOnly, LegsOnCashAndCapital;
    CreatedFrom(w, b, undo);
    var d := DraftOf(w, undo, SourceOf(b.transfers, undo));
    PostedParts(w, b, d);
    PreparedEntries(w, true, d);
    FlippedOnCashAndCapital(w, b.transfers[undo.target].entries);
    BookedOnCashAndCapital(w, NewTransfer(w, b, undo).entries, d.legs);
  }
}
