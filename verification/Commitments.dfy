/**
 * Commitments over whole runs of business operations: nobody is called beyond a commitment, and contributions
 * are conserved between the partners' accounts and the capital calls.
 */
module Commitments {
  import opened Results
  import opened Sums
  import opened Types
  import opened Chart
  import opened Queries
  import opened Posting
  import opened Operations
  import opened Invariants
  import opened Capital
  import opened Fingerprints
  import Pricing

  /**
   * The source posts plain transfers only as fees, investments and valuation adjustments, none of which touches
   * general-partner capital.
   */
  predicate Business(w: World, req: Request) {
    req.PostLegs? ==> (req.kind == Fee || req.kind == Investment || req.kind == Adjustment) && LegsOffGp(w, req.legs)
  }

  predicate LegsOffGp(w: World, legs: seq<Leg>) {
    forall i :: 0 <= i < |legs| && legs[i].account < |w.accounts| ==> w.accounts[legs[i].account].kind != GpCapital
  }

  ghost predicate EntriesOffGp(w: World, entries: seq<Entry>) {
    forall i :: 0 <= i < |entries| ==>
      entries[i].account < |w.accounts| && w.accounts[entries[i].account].kind != GpCapital
  }

  /** No transfer has touched general-partner capital. */
  ghost predicate OffGp(w: World, ts: seq<Transfer>) {
    forall i :: 0 <= i < |ts| ==> EntriesOffGp(w, ts[i].entries)
  }

  // ---- Sums over partners --------------------------------------------------------------------------------

  function AccountSet(ids: seq<AccountId>): set<AccountId> { set i | 0 <= i < |ids| :: ids[i] }

  lemma {:induction false} SumOverAccounts(ts: seq<Transfer>, ids: seq<AccountId>, p: set<PeriodId>,
                                           k: set<TransferType>)
    requires forall i, j :: 0 <= i < j < |ids| ==> ids[i] != ids[j]
    ensures SumBy(ids, (a: AccountId) => BaseSum(ts, {a}, p, k)) == BaseSum(ts, AccountSet(ids), p, k)
  {
    if ids == [] {
      EmptySelections(ts, {}, p, k);
      assert AccountSet(ids) == {};
    } else {
      var n := |ids| - 1;
      SumOverAccounts(ts, ids[..n], p, k);
      assert AccountSet(ids) == AccountSet(ids[..n]) + {ids[n]};
      SplitByAccounts(ts, AccountSet(ids[..n]), {ids[n]}, p, k);
    }
  }

  lemma PartnerAccountSet(w: World, fund: FundId)
    requires WorldOk(w)
    ensures AccountSet(LpAccountIds(w, fund, CommitmentsOf(w, fund))) == FundAccounts(w, fund, {LpCapital})
  {
    var cs := CommitmentsOf(w, fund);
    var ids := LpAccountIds(w, fund, cs);
    forall i | 0 <= i < |ids| ensures ids[i] in FundAccounts(w, fund, {LpCapital}) {
      assert cs[i] in cs;
      PartnerAccount(w, fund, cs[i]);
    }
    forall a | a in FundAccounts(w, fund, {LpCapital}) ensures a in AccountSet(ids) {
      CapitalAccountIsPartners(w, fund, a);
      var i :| 0 <= i < |cs| && LpAccount(w, fund, cs[i].lp) == a;
      assert ids[i] == a;
    }
  }

  /** Summing a query over a fund's partners is the query over its capital accounts. */
  lemma PartnersSum(w: World, fund: FundId, ts: seq<Transfer>, p: set<PeriodId>, k: set<TransferType>)
    requires WorldOk(w)
    ensures SumBy(LpAccountIds(w, fund, CommitmentsOf(w, fund)), (a: AccountId) => BaseSum(ts, {a}, p, k))
      == BaseSum(ts, FundAccounts(w, fund, {LpCapital}), p, k)
  {
    PartnersDistinct(w, fund);
    PartnerAccountSet(w, fund);
    SumOverAccounts(ts, LpAccountIds(w, fund, CommitmentsOf(w, fund)), p, k);
  }

  // ---- Documents and their transfers ---------------------------------------------------------------------

  /** A capital call's transfer credits the fund's partners its total and debits no capital account. */
  ghost predicate CallFits(w: World, t: Transfer, fund: FundId, total: int) {
    && t.kind == CapitalCall && t.period < |w.periods| && w.periods[t.period].fund == fund
    && (forall a :: 0 <= a < |w.accounts| && w.accounts[a].kind == LpCapital ==> BaseIn(t.entries, {a}) <= 0)
    && BaseIn(t.entries, FundAccounts(w, fund, {LpCapital})) == -total
  }

  predicate HasCall(calls: seq<CallDoc>, i: TransferId) { exists n :: 0 <= n < |calls| && calls[n].transfer == i }

  predicate HasDistribution(docs: seq<DistributionDoc>, i: TransferId) {
    exists n :: 0 <= n < |docs| && docs[n].transfer == i
  }

  /** Calls and their transfers are in one-to-one correspondence. */
  ghost predicate Linked(w: World, b: Books) {
    && (forall n :: 0 <= n < |b.calls| ==>
          b.calls[n].transfer < |b.transfers| &&
          CallFits(w, b.transfers[b.calls[n].transfer], b.calls[n].fund, b.calls[n].total))
    && (forall m, n :: 0 <= m < n < |b.calls| ==> b.calls[m].transfer < b.calls[n].transfer)
    && (forall i :: 0 <= i < |b.transfers| && b.transfers[i].kind == CapitalCall ==> HasCall(b.calls, i))
  }

  /** A known key of a call or a distribution always finds the document to replay. */
  ghost predicate Replayable(b: Books) {
    forall i :: 0 <= i < |b.transfers| ==>
      && (b.transfers[i].hash.CallPrint? ==> HasCall(b.calls, i))
      && (b.transfers[i].hash.DistributionPrint? ==> HasDistribution(b.distributions, i))
  }

  ghost predicate WithinCommitments(w: World, ts: seq<Transfer>) {
    forall i :: 0 <= i < |w.commitments| ==>
      var c := w.commitments[i];
      0 <= Contributed(w, ts, LpAccount(w, c.fund, c.lp)) <= c.committed
  }

  ghost predicate BusinessOk(w: World, b: Books) {
    BooksOk(w, b) && Linked(w, b) && Replayable(b) && WithinCommitments(w, b.transfers) && OffGp(w, b.transfers)
  }

  // ---- One new transfer ----------------------------------------------------------------------------------

  lemma OtherFundUntouched(w: World, t: Transfer, a: set<AccountId>)
    requires t.period < |w.periods| && EntriesOk(w, w.periods[t.period].fund, t.entries)
    requires forall x :: x in a ==> x < |w.accounts| && w.accounts[x].fund != w.periods[t.period].fund
    ensures forall e :: e in t.entries ==> e.account !in a
  {
    forall e | e in t.entries ensures e.account !in a {
      var i :| 0 <= i < |t.entries| && t.entries[i] == e;
      assert EntryOk(w, w.periods[t.period].fund, t.entries[i]);
    }
  }

  lemma BooksAreLedger(w: World, b: Books)
    requires BooksOk(w, b)
    ensures LedgerOk(w, b.transfers)
  {
  }

  lemma CallPeriod(w: World, req: Request)
    requires req.Call? && PlanFor(w, req.fund, req.total, req.notice, true).Ok?
    ensures var p := PlanFor(w, req.fund, req.total, req.notice, true).value.period;
      p < |w.periods| && w.periods[p].fund == req.fund
  {
    PeriodForFund(w, req.fund, req.notice);
  }

  lemma DraftOfCallFits(w: World, b: Books, req: Request)
    requires req.Call?
    ensures DraftFits(b.transfers, DraftOf(w, req, None))
  {
    hide PlanFor;
  }

  lemma CallTransferFits(w: World, b: Books, req: Request)
    requires Called(w, b, req) && BooksOk(w, b)
    ensures Posted(w, b, DraftOf(w, req, None)).Ok?
    ensures CallFits(w, CallTransfer(w, b, req), req.fund, req.total)
  {
    hide WorldOk, Created, PlanFor, DraftOf, Posted, Prepare, Sufficient, PositiveRows, KeyIndex, BooksOk;
    assert LedgerOk(w, b.transfers) by {
      BooksAreLedger(w, b);
    }
    CalledParts(w, b, req);
    CallDraft(w, req);
    CallPeriod(w, req);
    PostedParts(w, b, DraftOf(w, req, None));
    CallCreditsTotal(w, b, req);
    var t := CallTransfer(w, b, req);
    DraftOfCallFits(w, b, req);
    PostedTransferOk(w, b, DraftOf(w, req, None));
    forall a | 0 <= a < |w.accounts| && w.accounts[a].kind == LpCapital ensures BaseIn(t.entries, {a}) <= 0 {
      CallCreditsAccount(w, b, req, a);
    }
  }

  lemma CallCreditsAccount(w: World, b: Books, req: Request, a: nat)
    requires Called(w, b, req) && a < |w.accounts| && w.accounts[a].kind == LpCapital
    requires Posted(w, b, DraftOf(w, req, None)).Ok?
    requires var t := CallTransfer(w, b, req);
      t.period < |w.periods| && w.periods[t.period].fund == req.fund && EntriesOk(w, req.fund, t.entries)
    ensures BaseIn(CallTransfer(w, b, req).entries, {a}) <= 0
  {
    hide WorldOk, Created, PlanFor, DraftOf, Posted;
    var t := CallTransfer(w, b, req);
    if w.accounts[a].fund == req.fund {
      CapitalAccountIsPartners(w, req.fund, a);
      var i :| 0 <= i < |CommitmentsOf(w, req.fund)| && LpAccount(w, req.fund, CommitmentsOf(w, req.fund)[i].lp) == a;
      CallCreditsShares(w, b, req, i);
    } else {
      OtherFundUntouched(w, t, {a});
      UntouchedIsZero(t.entries, {a});
    }
  }

  /** The documents after a creation, and the type and hash of its transfer. */
  lemma CreatedShape(w: World, b: Books, req: Request, source: Option<Transfer>)
    requires !req.Close? && Created(w, b, req, source).Ok?
    ensures var after := Created(w, b, req, source).value;
      var t := after.transfers[|b.transfers|];
      && t.hash == HashOf(req)
      && (req.Call? <==> t.hash.CallPrint?) && (req.Distribute? <==> t.hash.DistributionPrint?)
      && (Business(w, req) ==> (req.Call? <==> t.kind == CapitalCall))
      && (!req.Call? ==> after.calls == b.calls)
      && (!req.Distribute? ==> after.distributions == b.distributions)
      && (req.Call? ==>
            && |after.calls| == |b.calls| + 1 && after.calls[..|b.calls|] == b.calls
            && after.calls[|b.calls|].transfer == |b.transfers|
            && after.calls[|b.calls|].fund == req.fund && after.calls[|b.calls|].total == req.total)
      && (req.Distribute? ==>
            && |after.distributions| == |b.distributions| + 1
            && after.distributions[..|b.distributions|] == b.distributions
            && after.distributions[|b.distributions|].transfer == |b.transfers|)
  {
    hide PlanFor, PlanError, DocumentError, NextNumber, Texts, MoneyText, Prepare, Sufficient, PositiveRows;
    CreatedParts(w, b, req, source);
  }

  lemma HasCallGrows(calls: seq<CallDoc>, more: seq<CallDoc>, i: TransferId)
    requires HasCall(calls, i) && |calls| <= |more| && more[..|calls|] == calls
    ensures HasCall(more, i)
  {
    var n :| 0 <= n < |calls| && calls[n].transfer == i;
    assert more[n] == more[..|calls|][n];
  }

  lemma HasDistributionGrows(docs: seq<DistributionDoc>, more: seq<DistributionDoc>, i: TransferId)
    requires HasDistribution(docs, i) && |docs| <= |more| && more[..|docs|] == docs
    ensures HasDistribution(more, i)
  {
    var n :| 0 <= n < |docs| && docs[n].transfer == i;
    assert more[n] == more[..|docs|][n];
  }

  lemma LinkedWithOther(w: World, b: Books, after: Books, t: Transfer)
    requires Linked(w, b) && after.transfers == b.transfers + [t] && after.calls == b.calls && t.kind != CapitalCall
    ensures Linked(w, after)
  {
    forall i | 0 <= i < |after.transfers| && after.transfers[i].kind == CapitalCall ensures HasCall(after.calls, i) {
      assert after.transfers[i] == b.transfers[i];
    }
  }

  lemma LinkedWithCall(w: World, b: Books, after: Books, t: Transfer, doc: CallDoc)
    requires Linked(w, b) && after.transfers == b.transfers + [t] && after.calls == b.calls + [doc]
    requires doc.transfer == |b.transfers| && CallFits(w, t, doc.fund, doc.total)
    ensures Linked(w, after)
  {
    assert after.calls[|b.calls|] == doc;
    forall i | 0 <= i < |after.transfers| && after.transfers[i].kind == CapitalCall ensures HasCall(after.calls, i) {
      if i < |b.transfers| {
        assert after.transfers[i] == b.transfers[i];
        HasCallGrows(b.calls, after.calls, i);
      }
    }
  }

  lemma CreatedKeepsLinked(w: World, b: Books, req: Request, source: Option<Transfer>)
    requires WorldOk(w) && BooksOk(w, b) && Linked(w, b) && Business(w, req)
    requires !req.Close? && Created(w, b, req, source).Ok? && (req.Reverse? || source.None?)
    ensures Linked(w, Created(w, b, req, source).value)
  {
    CreatedParts(w, b, req, source);
    CreatedShape(w, b, req, source);
    var after := Created(w, b, req, source).value;
    var t := Posted(w, b, DraftOf(w, req, source)).value;
    if req.Call? {
      CallTransferFits(w, b, req);
      LinkedWithCall(w, b, after, t, after.calls[|b.calls|]);
    } else {
      LinkedWithOther(w, b, after, t);
    }
  }

  lemma NewestReplayable(w: World, b: Books, req: Request, source: Option<Transfer>)
    requires !req.Close? && Created(w, b, req, source).Ok?
    ensures var after := Created(w, b, req, source).value;
      && |after.transfers| == |b.transfers| + 1
      && (after.transfers[|b.transfers|].hash.CallPrint? ==> HasCall(after.calls, |b.transfers|))
      && (after.transfers[|b.transfers|].hash.DistributionPrint? ==>
            HasDistribution(after.distributions, |b.transfers|))
  {
    hide Created, Posted, DraftOf, HashOf;
    CreatedParts(w, b, req, source);
    CreatedShape(w, b, req, source);
  }

  lemma CreatedKeepsReplayable(w: World, b: Books, req: Request, source: Option<Transfer>)
    requires Replayable(b) && !req.Close? && Created(w, b, req, source).Ok?
    ensures Replayable(Created(w, b, req, source).value)
  {
    hide Created, Posted, DraftOf, HashOf, HasCall, HasDistribution;
    CreatedParts(w, b, req, source);
    CreatedShape(w, b, req, source);
    var after := Created(w, b, req, source).value;
    NewestReplayable(w, b, req, source);
    forall i | 0 <= i < |after.transfers|
      ensures after.transfers[i].hash.CallPrint? ==> HasCall(after.calls, i)
      ensures after.transfers[i].hash.DistributionPrint? ==> HasDistribution(after.distributions, i)
    {
      if i < |b.transfers| {
        assert after.transfers[i] == b.transfers[i];
        if after.transfers[i].hash.CallPrint? { HasCallGrows(b.calls, after.calls, i); }
        if after.transfers[i].hash.DistributionPrint? {
          HasDistributionGrows(b.distributions, after.distributions, i);
        }
      }
    }
  }

  // ---- Commitments ---------------------------------------------------------------------------------------

  lemma ContributedAppend(w: World, ts: seq<Transfer>, t: Transfer, a: AccountId)
    requires PointsBack(ts) && t.period < |w.periods|
    ensures Contributed(w, ts + [t], a) == Contributed(w, ts, a)
      - if EffectiveKind(ts + [t], t) == CapitalCall then BaseIn(t.entries, {a}) else 0
  {
    BaseSumAppend(ts, t, {a}, AllPeriods(w), {CapitalCall});
  }

  /** What calls have contributed through a capital account is never negative. */
  lemma ContributedNonNegative(w: World, b: Books, a: AccountId)
    requires LedgerOk(w, b.transfers) && Linked(w, b) && a < |w.accounts| && w.accounts[a].kind == LpCapital
    ensures Contributed(w, b.transfers, a) >= 0
  {
    var ts := b.transfers;
    ContributionsAreStandingCalls(w, ts, {a});
    forall i | 0 <= i < |ts| ensures StandingTerm(ts, {a}, i) <= 0 {
      if ts[i].kind == CapitalCall {
        var n :| 0 <= n < |b.calls| && b.calls[n].transfer == i;
        assert CallFits(w, ts[b.calls[n].transfer], b.calls[n].fund, b.calls[n].total);
      }
    }
    SumByMonotone(Range(|ts|), i => StandingTerm(ts, {a}, i), i => 0);
    SumByZero(Range(|ts|), (i: int) => 0);
    SumByCongruent(Range(|ts|), (i: int) => 0, i => 0);
  }

  /** Reversing a call never raises what its partners have contributed. */
  lemma ReversalLowersContribution(w: World, b: Books, t: Transfer, a: AccountId)
    requires LedgerOk(w, b.transfers) && Linked(w, b) && TransferOk(w, b.transfers, t) && t.reverses.Some?
    requires a < |w.accounts| && w.accounts[a].kind == LpCapital
    ensures Contributed(w, b.transfers + [t], a) <= Contributed(w, b.transfers, a)
  {
    var ts := b.transfers;
    var j := t.reverses.value;
    TransfersPointBack(w, ts);
    ContributedAppend(w, ts, t, a);
    if ts[j].kind == CapitalCall {
      var n :| 0 <= n < |b.calls| && b.calls[n].transfer == j;
      assert CallFits(w, ts[b.calls[n].transfer], b.calls[n].fund, b.calls[n].total);
      assert TransferOk(w, ts[..j], ts[j]);
      FlipNegates(ts[j].entries, {a});
    }
  }

  /** A call leaves the partners it calls within the commitments they were checked against. */
  lemma CalledPartnerStaysWithin(w: World, b: Books, req: Request, c: Commitment)
    requires Called(w, b, req) && TransfersOk(w, b.transfers) && c in CommitmentsOf(w, req.fund)
    ensures Posted(w, b, DraftOf(w, req, None)).Ok?
    ensures Contributed(w, b.transfers + [CallTransfer(w, b, req)], LpAccount(w, req.fund, c.lp)) <= c.committed
  {
    var cs := CommitmentsOf(w, req.fund);
    CalledParts(w, b, req);
    PostedParts(w, b, DraftOf(w, req, None));
    TransfersPointBack(w, b.transfers);
    ContributedAppend(w, b.transfers, CallTransfer(w, b, req), LpAccount(w, req.fund, c.lp));
    var i :| 0 <= i < |cs| && cs[i] == c;
    CallCreditsShares(w, b, req, i);
  }

  /** A transfer moves no contribution of another fund. */
  lemma OtherFundsTransfer(w: World, ts: seq<Transfer>, t: Transfer, a: AccountId)
    requires PointsBack(ts) && TransferOk(w, ts, t)
    requires a < |w.accounts| && w.accounts[a].fund != w.periods[t.period].fund
    ensures Contributed(w, ts + [t], a) == Contributed(w, ts, a)
  {
    ContributedAppend(w, ts, t, a);
    OtherFundUntouched(w, t, {a});
    UntouchedIsZero(t.entries, {a});
  }

  lemma OtherFundsContribution(w: World, b: Books, req: Request, c: Commitment)
    requires Called(w, b, req) && BooksOk(w, b) && c in CommitmentsOf(w, c.fund) && c.fund != req.fund
    ensures Posted(w, b, DraftOf(w, req, None)).Ok?
    ensures Contributed(w, b.transfers + [CallTransfer(w, b, req)], LpAccount(w, c.fund, c.lp))
      == Contributed(w, b.transfers, LpAccount(w, c.fund, c.lp))
  {
    hide WorldOk, Created, PlanFor, Posted, Contributed, DraftOf;
    CallTransferFits(w, b, req);
    DraftOfCallFits(w, b, req);
    PostedTransferOk(w, b, DraftOf(w, req, None));
    TransfersPointBack(w, b.transfers);
    PartnerAccount(w, c.fund, c);
    OtherFundsTransfer(w, b.transfers, CallTransfer(w, b, req), LpAccount(w, c.fund, c.lp));
  }

  lemma CreatedStaysWithin(w: World, b: Books, req: Request, source: Option<Transfer>, c: Commitment)
    requires WorldOk(w) && BooksOk(w, b) && Linked(w, b) && Business(w, req) && c in w.commitments
    requires !req.Close? && Created(w, b, req, source).Ok? && (req.Reverse? || source.None?)
    requires DraftFits(b.transfers, DraftOf(w, req, source))
    requires Contributed(w, b.transfers, LpAccount(w, c.fund, c.lp)) <= c.committed
    ensures Contributed(w, Created(w, b, req, source).value.transfers, LpAccount(w, c.fund, c.lp)) <= c.committed
  {
    hide WorldOk, Created, Posted, DraftOf, HashOf, Contributed;
    var d := DraftOf(w, req, source);
    CreatedParts(w, b, req, source);
    CreatedShape(w, b, req, source);
    var t := Posted(w, b, d).value;
    PostedTransferOk(w, b, d);
    TransfersPointBack(w, b.transfers);
    if req.Call? {
      if c.fund == req.fund {
        assert c in CommitmentsOf(w, req.fund);
        CalledPartnerStaysWithin(w, b, req, c);
      } else {
        assert c in CommitmentsOf(w, c.fund);
        OtherFundsContribution(w, b, req, c);
      }
    } else if t.reverses.Some? {
      assert c in CommitmentsOf(w, c.fund);
      PartnerAccount(w, c.fund, c);
      ReversalLowersContribution(w, b, t, LpAccount(w, c.fund, c.lp));
    } else {
      ContributedAppend(w, b.transfers, t, LpAccount(w, c.fund, c.lp));
    }
  }

  lemma DraftOffGp(w: World, b: Books, req: Request)
    requires WorldOk(w) && Business(w, req) && !req.Close? && TransfersOk(w, b.transfers) && OffGp(w, b.transfers)
    requires Pricing.KnownAccounts(w, DraftOf(w, req, SourceOf(b.transfers, req)).legs)
    ensures LegsOffGp(w, DraftOf(w, req, SourceOf(b.transfers, req)).legs)
  {
    hide WorldOk, TransfersOk, PlanFor;
    match req
    case PostLegs(_, _, _, _, _) =>
    case Call(_, fund, total, notice, _, _) =>
      if PlanFor(w, fund, total, notice, true).Ok? { PlanLegsShape(w, fund, total, notice, true); }
    case Distribute(_, fund, total, payment, _, _) =>
      if PlanFor(w, fund, total, payment, false).Ok? { PlanLegsShape(w, fund, total, payment, false); }
    case Reverse(_, target, _, _) =>
      if target < |b.transfers| { assert EntriesOffGp(w, b.transfers[target].entries); }
  }

  lemma CreatedOffGp(w: World, b: Books, req: Request)
    requires WorldOk(w) && Business(w, req) && !req.Close? && TransfersOk(w, b.transfers) && OffGp(w, b.transfers)
    requires Created(w, b, req, SourceOf(b.transfers, req)).Ok?
    ensures OffGp(w, Created(w, b, req, SourceOf(b.transfers, req)).value.transfers)
  {
    hide WorldOk, TransfersOk, Created, DraftOf, Posted, Prepare, Business;
    var source := SourceOf(b.transfers, req);
    var d := DraftOf(w, req, source);
    CreatedParts(w, b, req, source);
    PostedParts(w, b, d);
    PreparedDraft(w, true, d);
    PreparedEntries(w, true, d);
    DraftOffGp(w, b, req);
    var t := Posted(w, b, d).value;
    forall i | 0 <= i < |t.entries|
      ensures t.entries[i].account < |w.accounts| && w.accounts[t.entries[i].account].kind != GpCapital
    {
      assert BooksLeg(t.entries[i], d.legs[i]);
    }
  }

  lemma CreatedKeepsBusiness(w: World, b: Books, req: Request, source: Option<Transfer>)
    requires WorldOk(w) && BusinessOk(w, b) && Business(w, req)
    requires !req.Close? && Created(w, b, req, source).Ok? && source == SourceOf(b.transfers, req)
    requires DraftFits(b.transfers, DraftOf(w, req, source))
    ensures BusinessOk(w, Created(w, b, req, source).value)
  {
    hide WorldOk, LedgerOk, Linked, Replayable, OffGp, Created, DraftOf, Contributed, Business, DraftFits;
    LedgerParts(w, b.transfers);
    CreatedOffGp(w, b, req);
    var after := Created(w, b, req, source).value;
    CreatedKeepsBooks(w, b, req, source);
    CreatedKeepsLinked(w, b, req, source);
    CreatedKeepsReplayable(w, b, req, source);
    forall i | 0 <= i < |w.commitments|
      ensures var c := w.commitments[i];
        0 <= Contributed(w, after.transfers, LpAccount(w, c.fund, c.lp)) <= c.committed
    {
      var c := w.commitments[i];
      CreatedStaysWithin(w, b, req, source, c);
      assert c in CommitmentsOf(w, c.fund);
      PartnerAccount(w, c.fund, c);
      ContributedNonNegative(w, after, LpAccount(w, c.fund, c.lp));
    }
  }

  /** Every business operation keeps the commitments. */
  lemma ExecuteKeepsBusiness(w: World, b: Books, req: Request)
    requires WorldOk(w) && BusinessOk(w, b) && Business(w, req)
    ensures BusinessOk(w, Execute(w, b, req).0)
  {
    if req.Close? {
      CloseOutcome(w, b, req.fund, req.closing);
      CloseKeepsPrefix(w, b, req.fund, req.closing);
    } else {
      ExecuteOutcome(w, b, req);
      if Execute(w, b, req).0 != b {
        CreatedKeepsBusiness(w, b, req, SourceOf(b.transfers, req));
      }
    }
  }

  lemma EmptyBusinessOk(w: World)
    requires WorldOk(w)
    ensures BusinessOk(w, EmptyBooks)
  {
    SerialRunsKeepBooks(w, []);
    forall i | 0 <= i < |w.commitments| ensures w.commitments[i].committed > 0 {}
  }

  /** Over every run of business operations, each partner's net contribution stays between zero and the commitment. */
  lemma {:induction false} RunsKeepCommitments(w: World, reqs: seq<Request>)
    requires WorldOk(w) && forall i :: 0 <= i < |reqs| ==> Business(w, reqs[i])
    ensures BusinessOk(w, ExecuteAll(w, EmptyBooks, reqs))
  {
    if reqs == [] {
      EmptyBusinessOk(w);
    } else {
      var n := |reqs| - 1;
      RunsKeepCommitments(w, reqs[..n]);
      ExecuteKeepsBusiness(w, ExecuteAll(w, EmptyBooks, reqs[..n]), reqs[n]);
    }
  }

  // ---- Conservation --------------------------------------------------------------------------------------

  function OutstandingTerm(ts: seq<Transfer>, fund: FundId, d: CallDoc): int {
    if d.fund == fund && Standing(ts, d.transfer) then d.total else 0
  }

  /** The total of a fund's capital calls that have not been reversed. */
  function OutstandingCalls(b: Books, fund: FundId): int {
    SumBy(b.calls, d => OutstandingTerm(b.transfers, fund, d))
  }

  lemma {:induction false} ZeroTail(n: nat, m: nat, g: int -> int)
    requires m <= n && forall i :: m <= i < n ==> g(i) == 0
    ensures SumBy(Range(n), g) == SumBy(Range(m), g)
  {
    if m < n {
      assert Range(n) == Range(n - 1) + [n - 1];
      SumByAppend(Range(n - 1), n - 1, g);
      ZeroTail(n - 1, m, g);
    }
  }

  /** A sum over a range that only counts rising positions is a sum over those positions. */
  lemma {:induction false} SumOverPositions(ids: seq<int>, n: nat, g: int -> int)
    requires forall m :: 0 <= m < |ids| ==> 0 <= ids[m] < n
    requires forall l, m :: 0 <= l < m < |ids| ==> ids[l] < ids[m]
    requires forall i :: 0 <= i < n && i !in ids ==> g(i) == 0
    ensures SumBy(Range(n), g) == SumBy(ids, g)
    decreases |ids|
  {
    if ids == [] {
      ZeroTail(n, 0, g);
    } else {
      var last := |ids| - 1;
      var j, front := ids[last], ids[..last];
      assert ids == front + [j];
      forall i | 0 <= i < n && i !in front && i != j ensures g(i) == 0 {
        assert i !in ids;
      }
      forall i | j < i < n ensures i !in front {
        assert forall m :: 0 <= m < |front| ==> front[m] == ids[m] < j;
      }
      LastPosition(n, j, g);
      SumOverPositions(front, j, g);
      SumByAppend(front, j, g);
    }
  }

  lemma LastPosition(n: nat, j: nat, g: int -> int)
    requires j < n && forall i :: j < i < n ==> g(i) == 0
    ensures SumBy(Range(n), g) == SumBy(Range(j), g) + g(j)
  {
    ZeroTail(n, j + 1, g);
    assert Range(j + 1) == Range(j) + [j];
    SumByAppend(Range(j), j, g);
  }

  function TransferIds(calls: seq<CallDoc>): (r: seq<int>)
    ensures |r| == |calls| && forall m :: 0 <= m < |r| ==> r[m] == calls[m].transfer
  {
    seq(|calls|, m requires 0 <= m < |calls| => calls[m].transfer)
  }

  lemma {:induction false} SumOfIds(calls: seq<CallDoc>, g: int -> int, h: CallDoc -> int)
    requires forall m :: 0 <= m < |calls| ==> h(calls[m]) == g(calls[m].transfer)
    ensures SumBy(TransferIds(calls), g) == SumBy(calls, h)
  {
    if calls != [] {
      var last := |calls| - 1;
      SumOfIds(calls[..last], g, h);
      assert TransferIds(calls)[..last] == TransferIds(calls[..last]);
    }
  }

  /** A sum over transfers that only counts the documents' transfers is a sum over the documents. */
  lemma SumOverDocuments(calls: seq<CallDoc>, n: nat, g: int -> int, h: CallDoc -> int)
    requires forall m :: 0 <= m < |calls| ==> calls[m].transfer < n && h(calls[m]) == g(calls[m].transfer)
    requires forall l, m :: 0 <= l < m < |calls| ==> calls[l].transfer < calls[m].transfer
    requires forall i: nat :: i < n && !HasCall(calls, i) ==> g(i) == 0
    ensures SumBy(Range(n), g) == SumBy(calls, h)
  {
    forall m | 0 <= m < |calls| ensures calls[m].transfer in TransferIds(calls) {
      assert TransferIds(calls)[m] == calls[m].transfer;
    }
    SumOverPositions(TransferIds(calls), n, g);
    SumOfIds(calls, g, h);
  }

  lemma StandingCallTerm(w: World, b: Books, fund: FundId, d: CallDoc)
    requires WorldOk(w) && LedgerOk(w, b.transfers) && Linked(w, b) && d in b.calls
    ensures d.transfer < |b.transfers|
    ensures StandingTerm(b.transfers, FundAccounts(w, fund, {LpCapital}), d.transfer)
      == -OutstandingTerm(b.transfers, fund, d)
  {
    var n :| 0 <= n < |b.calls| && b.calls[n] == d;
    var t := b.transfers[b.calls[n].transfer];
    assert CallFits(w, t, d.fund, d.total);
    if d.fund != fund {
      assert TransferOk(w, b.transfers[..d.transfer], t);
      OtherFundUntouched(w, t, FundAccounts(w, fund, {LpCapital}));
      UntouchedIsZero(t.entries, FundAccounts(w, fund, {LpCapital}));
    }
  }

  lemma LedgerParts(w: World, ts: seq<Transfer>)
    requires LedgerOk(w, ts)
    ensures TransfersOk(w, ts) && UniqueKeys(ts) && UniqueReversals(ts) && CashNonNegative(w, ts)
  {
  }

  lemma NoCallNoTerm(w: World, b: Books, a: set<AccountId>, i: nat)
    requires Linked(w, b) && i < |b.transfers| && !HasCall(b.calls, i)
    ensures StandingTerm(b.transfers, a, i) == 0
  {
    hide HasCall, CallFits;
  }

  /**
   * Contributions are conserved: what a fund's partners have paid in, net, is the total of the fund's capital
   * calls that have not been reversed.
   */
  lemma ContributionsConserved(w: World, b: Books, fund: FundId)
    requires WorldOk(w) && LedgerOk(w, b.transfers) && Linked(w, b)
    ensures SumBy(LpAccountIds(w, fund, CommitmentsOf(w, fund)), (a: AccountId) => Contributed(w, b.transfers, a))
      == OutstandingCalls(b, fund)
  {
    hide WorldOk, LedgerOk, BaseSum, StandingTerm, OutstandingTerm, AllPeriods;
    var ts, a := b.transfers, FundAccounts(w, fund, {LpCapital});
    var ids := LpAccountIds(w, fund, CommitmentsOf(w, fund));
    LedgerParts(w, ts);
    PartnersSum(w, fund, ts, AllPeriods(w), {CapitalCall});
    SumByScales(ids, -1, (a: AccountId) => BaseSum(ts, {a}, AllPeriods(w), {CapitalCall}),
                (a: AccountId) => Contributed(w, ts, a));
    ContributionsAreStandingCalls(w, ts, a);
    var g := i => -StandingTerm(ts, a, i);
    SumByScales(Range(|ts|), -1, i => StandingTerm(ts, a, i), g);
    forall d | d in b.calls ensures d.transfer < |ts| && OutstandingTerm(ts, fund, d) == g(d.transfer) {
      StandingCallTerm(w, b, fund, d);
    }
    forall i: nat | i < |ts| && !HasCall(b.calls, i) ensures g(i) == 0 {
      NoCallNoTerm(w, b, a, i);
    }
    SumOverDocuments(b.calls, |ts|, g, d => OutstandingTerm(ts, fund, d));
  }

  // ---- The simple postings -------------------------------------------------------------------------------

  lemma StandardAccount(w: World, fund: FundId, kind: AccountType, currency: Currency)
    requires WorldOk(w) && kind != LpCapital && GetAccount(w, fund, kind, currency) < |w.accounts|
    ensures w.accounts[GetAccount(w, fund, kind, currency)].kind == kind
  {
    assert StandardCodes(w);
  }

  lemma TwoLegsOffGp(w: World, req: Request)
    requires WorldOk(w) && req.PostLegs? && |req.legs| == 2
    requires forall i :: 0 <= i < 2 ==> StandardLeg(w, req.legs[i])
    ensures LegsOffGp(w, req.legs)
  {
    forall i | 0 <= i < 2 && req.legs[i].account < |w.accounts|
      ensures w.accounts[req.legs[i].account].kind != GpCapital
    {
      assert StandardLeg(w, req.legs[i]);
      var fund, kind, currency :| IsStandard(w, req.legs[i], fund, kind, currency);
      StandardAccount(w, fund, kind, currency);
    }
  }

  predicate IsStandard(w: World, l: Leg, fund: FundId, kind: AccountType, currency: Currency) {
    kind != LpCapital && kind != GpCapital && l.account == GetAccount(w, fund, kind, currency)
  }

  ghost predicate StandardLeg(w: World, l: Leg) {
    exists fund, kind, currency :: IsStandard(w, l, fund, kind, currency)
  }

  /** Fees are business postings. */
  lemma FeeIsBusiness(w: World, fund: FundId, key: string, amount: int, on: Date)
    requires WorldOk(w) && FeeRequest(w, fund, key, amount, on).Ok?
    ensures Business(w, FeeRequest(w, fund, key, amount, on).value)
  {
    var req := FeeRequest(w, fund, key, amount, on).value;
    assert IsStandard(w, req.legs[0], fund, FeeExpense, BaseCurrency(w, fund));
    assert IsStandard(w, req.legs[1], fund, Cash, BaseCurrency(w, fund));
    TwoLegsOffGp(w, req);
  }

  /** Valuation changes are business postings. */
  lemma ValuationIsBusiness(w: World, fund: FundId, key: string, change: int, on: Date)
    requires WorldOk(w) && ValuationRequest(w, fund, key, change, on).Ok?
    ensures Business(w, ValuationRequest(w, fund, key, change, on).value)
  {
    var req := ValuationRequest(w, fund, key, change, on).value;
    assert IsStandard(w, req.legs[0], fund, if change > 0 then Investments else GainLoss, BaseCurrency(w, fund));
    assert IsStandard(w, req.legs[1], fund, if change > 0 then GainLoss else Investments, BaseCurrency(w, fund));
    TwoLegsOffGp(w, req);
  }

  /** Investments are business postings. */
  lemma InvestmentIsBusiness(w: World, fund: FundId, key: string, amount: int, currency: Currency, on: Date)
    requires WorldOk(w) && InvestmentRequest(w, fund, key, amount, currency, on).Ok?
    ensures Business(w, InvestmentRequest(w, fund, key, amount, currency, on).value)
  {
    var req := InvestmentRequest(w, fund, key, amount, currency, on).value;
    assert IsStandard(w, req.legs[0], fund, Investments, currency);
    assert IsStandard(w, req.legs[1], fund, Cash, BaseCurrency(w, fund));
    TwoLegsOffGp(w, req);
  }
}
