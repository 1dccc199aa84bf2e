/**
 * The unfunded commitment of any period (operations/statements.py). A call and the reversal of another may fall in
 * different periods, so a period's unfunded commitment can leave the range from zero to the commitment: what it is
 * made of, exactly when it stays in range, and which requests keep it there.
 */
module Unfunded {
  import opened Results
  import opened Sums
  import opened Types
  import opened Chart
  import opened Queries
  import opened Posting
  import opened Operations
  import opened Invariants
  import opened Capital
  import opened Commitments
  import opened Machine
  import opened Serializability
  import opened Safety
  import opened Statements
  import opened Acceptance

  /** The fund's periods through p. */
  function Through(w: World, p: PeriodId): (s: set<PeriodId>)
    requires p < |w.periods|
    ensures forall q: nat :: q in s <==> q <= p && w.periods[q].fund == w.periods[p].fund
  {
    set q: nat | 0 <= q <= p && w.periods[q].fund == w.periods[p].fund
  }

  function Partner(w: World, fund: FundId, i: nat): AccountId
    requires i < |CommitmentsOf(w, fund)|
  {
    LpAccount(w, fund, CommitmentsOf(w, fund)[i].lp)
  }

  /** Partner i's contributions to date on the statement for p. */
  function ToDate(w: World, ts: seq<Transfer>, p: PeriodId, i: nat): int
    requires p < |w.periods| && i < |CommitmentsOf(w, w.periods[p].fund)|
  {
    StatementOf(w, ts, p, i).contributedToDate
  }

  ghost predicate InRange(w: World, ts: seq<Transfer>, p: PeriodId, i: nat)
    requires p < |w.periods| && i < |CommitmentsOf(w, w.periods[p].fund)|
  {
    var s := StatementOf(w, ts, p, i);
    0 <= s.unfunded <= s.commitment
  }

  lemma ThroughIsPeriods(w: World, p: PeriodId)
    requires WorldOk(w) && p < |w.periods|
    ensures PeriodSet(PeriodsBefore(w, p) + [p]) == Through(w, p)
  {
    hide WorldOk, PeriodsBelow;
    var qs := PeriodsBefore(w, p) + [p];
    forall q: nat ensures q in PeriodSet(qs) <==> q in Through(w, p) {
      assert q in PeriodSet(qs) <==> q in qs;
      assert q in qs <==> q in PeriodsBefore(w, p) || q == p;
      if q < p && w.periods[q].fund == w.periods[p].fund {
        LaterStart(w, q, p);
      }
    }
  }

  /** Contributions to date are one filtered query over the fund's periods through p. */
  lemma ToDateIsQuery(w: World, ts: seq<Transfer>, p: PeriodId, i: nat)
    requires WorldOk(w) && p < |w.periods| && i < |CommitmentsOf(w, w.periods[p].fund)|
    ensures ToDate(w, ts, p, i) == -BaseSum(ts, {Partner(w, w.periods[p].fund, i)}, Through(w, p), {CapitalCall})
  {
    hide WorldOk, BaseSum, StatementOf, PeriodsBefore, PeriodsThrough, CommitmentsOf, LpAccount, PeriodSet;
    var a := Partner(w, w.periods[p].fund, i);
    ContributionsBefore(w, ts, p, i, a);
    ThroughEndsWithPeriod(w, p);
    ThroughIsDistinct(w, p);
    SumOverPeriods(ts, {a}, PeriodsBefore(w, p) + [p], {CapitalCall});
    ThroughIsPeriods(w, p);
  }

  lemma StatementParts(w: World, ts: seq<Transfer>, p: PeriodId, i: nat)
    requires p < |w.periods| && i < |CommitmentsOf(w, w.periods[p].fund)|
    ensures var s := StatementOf(w, ts, p, i);
      && s.commitment == CommitmentsOf(w, w.periods[p].fund)[i].committed
      && s.unfunded == s.commitment - ToDate(w, ts, p, i)
  {
    hide CommitmentsOf, MovementOf, NetThrough, ContributedThrough;
  }

  // ---- What contributions to date are made of ------------------------------------------------------------

  /** What transfer i credits to an account. */
  function ShareAt(ts: seq<Transfer>, a: AccountId, i: int): int {
    if 0 <= i < |ts| then -BaseIn(ts[i].entries, {a}) else 0
  }

  predicate CallIn(ts: seq<Transfer>, p: set<PeriodId>, i: int) {
    0 <= i < |ts| && ts[i].kind == CapitalCall && ts[i].period in p
  }

  /** Call i falls in the periods and nobody has reversed it. */
  predicate StandingIn(ts: seq<Transfer>, p: set<PeriodId>, i: int) { CallIn(ts, p, i) && Standing(ts, i) }

  /** Call i falls in the periods, and its reversal after them. */
  predicate ReversedAfter(ts: seq<Transfer>, p: set<PeriodId>, i: int) {
    CallIn(ts, p, i) && !Standing(ts, i) && !ReversedIn(ts, i, p)
  }

  /** Call i falls after the periods, and its reversal in them. */
  predicate CalledAfter(ts: seq<Transfer>, p: set<PeriodId>, i: int) {
    0 <= i < |ts| && ts[i].kind == CapitalCall && ts[i].period !in p && ReversedIn(ts, i, p)
  }

  function StandingShares(ts: seq<Transfer>, a: AccountId, p: set<PeriodId>): int {
    SumBy(Range(|ts|), i => if StandingIn(ts, p, i) then ShareAt(ts, a, i) else 0)
  }

  function SharesReversedAfter(ts: seq<Transfer>, a: AccountId, p: set<PeriodId>): int {
    SumBy(Range(|ts|), i => if ReversedAfter(ts, p, i) then ShareAt(ts, a, i) else 0)
  }

  function SharesCalledAfter(ts: seq<Transfer>, a: AccountId, p: set<PeriodId>): int {
    SumBy(Range(|ts|), i => if CalledAfter(ts, p, i) then ShareAt(ts, a, i) else 0)
  }

  lemma CarriedSplits(ts: seq<Transfer>, a: AccountId, p: set<PeriodId>, i: int)
    ensures -CarriedTerm(ts, {a}, p, i) == (if StandingIn(ts, p, i) then ShareAt(ts, a, i) else 0)
      + (if ReversedAfter(ts, p, i) then ShareAt(ts, a, i) else 0)
      - (if CalledAfter(ts, p, i) then ShareAt(ts, a, i) else 0)
  {
    hide BaseIn, ReversalIndex;
  }

  /**
   * Contributions to date are the shares of the standing calls through p, plus those of calls through p reversed
   * only after it, less those of calls after p reversed through it.
   */
  lemma ToDateSplits(w: World, ts: seq<Transfer>, p: PeriodId, i: nat)
    requires WorldOk(w) && LedgerOk(w, ts) && p < |w.periods| && i < |CommitmentsOf(w, w.periods[p].fund)|
    ensures var a, periods := Partner(w, w.periods[p].fund, i), Through(w, p);
      ToDate(w, ts, p, i) == StandingShares(ts, a, periods) + SharesReversedAfter(ts, a, periods)
        - SharesCalledAfter(ts, a, periods)
  {
    hide WorldOk, LedgerOk, BaseSum, CarriedTerm, ToDate, Partner, StandingIn, ReversedAfter, CalledAfter, ShareAt;
    var a, periods := Partner(w, w.periods[p].fund, i), Through(w, p);
    ToDateIsQuery(w, ts, p, i);
    LedgerParts(w, ts);
    CallsCarried(w, ts, {a}, periods);
    var s := k => if StandingIn(ts, periods, k) then ShareAt(ts, a, k) else 0;
    var r := k => if ReversedAfter(ts, periods, k) then ShareAt(ts, a, k) else 0;
    var c := k => if CalledAfter(ts, periods, k) then ShareAt(ts, a, k) else 0;
    var carried := k => CarriedTerm(ts, {a}, periods, k);
    SumByScales(Range(|ts|), -1, carried, k => -carried(k));
    forall k ensures -carried(k) == s(k) + r(k) - c(k) {
      CarriedSplits(ts, a, periods, k);
    }
    ThreeSums(Range(|ts|), s, r, c, k => -carried(k));
  }

  /** So the unfunded commitment is in range exactly when those three sums say so. */
  lemma UnfundedInRangeIff(w: World, ts: seq<Transfer>, p: PeriodId, i: nat)
    requires WorldOk(w) && LedgerOk(w, ts) && p < |w.periods| && i < |CommitmentsOf(w, w.periods[p].fund)|
    ensures var a, periods := Partner(w, w.periods[p].fund, i), Through(w, p);
      var kept := StandingShares(ts, a, periods) + SharesReversedAfter(ts, a, periods);
      var early := SharesCalledAfter(ts, a, periods);
      InRange(w, ts, p, i) <==> early <= kept <= CommitmentsOf(w, w.periods[p].fund)[i].committed + early
  {
    hide WorldOk, LedgerOk, StatementOf, ToDate, Partner, StandingShares, SharesReversedAfter, SharesCalledAfter;
    ToDateSplits(w, ts, p, i);
    StatementParts(w, ts, p, i);
  }

  /** The same in every state of every interleaved run. */
  lemma RunUnfundedInRangeIff(w: World, actions: seq<Action>, p: PeriodId, i: nat)
    requires WorldOk(w) && BusinessActions(w, actions)
    requires p < |w.periods| && i < |CommitmentsOf(w, w.periods[p].fund)|
    ensures var ts := Run(w, actions).books.transfers;
      var a, periods := Partner(w, w.periods[p].fund, i), Through(w, p);
      var kept := StandingShares(ts, a, periods) + SharesReversedAfter(ts, a, periods);
      var early := SharesCalledAfter(ts, a, periods);
      InRange(w, ts, p, i) <==> early <= kept <= CommitmentsOf(w, w.periods[p].fund)[i].committed + early
  {
    hide WorldOk, Run, Reachable, LedgerOk, InRange, Partner, StandingShares, SharesReversedAfter, SharesCalledAfter;
    hide Business, CommitmentsOf, TransfersOk, OffGp, ClosedPrefix, Linked;
    RunsAreReachable(w, actions);
    ReachableParts(w, Run(w, actions));
    UnfundedInRangeIff(w, Run(w, actions).books.transfers, p, i);
  }

  /** Reversals that stay on their call's side of p never take the statement for p out of range. */
  lemma InRangeWithoutCrossings(w: World, b: Books, p: PeriodId, i: nat)
    requires WorldOk(w) && BusinessOk(w, b) && p < |w.periods| && i < |CommitmentsOf(w, w.periods[p].fund)|
    requires forall k :: 0 <= k < |b.transfers| ==>
      !ReversedAfter(b.transfers, Through(w, p), k) && !CalledAfter(b.transfers, Through(w, p), k)
    ensures InRange(w, b.transfers, p, i)
  {
    hide WorldOk, BusinessOk, LedgerOk, Linked, PointsBack, InRange, Partner, ShareAt, Standing, CommitmentsOf;
    hide ReversedAfter, CalledAfter;
    var ts, a, periods := b.transfers, Partner(w, w.periods[p].fund, i), Through(w, p);
    BooksAreSound(w, b);
    SumByZero(Range(|ts|), k => if ReversedAfter(ts, periods, k) then ShareAt(ts, a, k) else 0);
    SumByZero(Range(|ts|), k => if CalledAfter(ts, periods, k) then ShareAt(ts, a, k) else 0);
    StandingSharesBounded(w, b, p, i);
    UnfundedInRangeIff(w, ts, p, i);
  }

  lemma StandingSharesBounded(w: World, b: Books, p: PeriodId, i: nat)
    requires WorldOk(w) && BusinessOk(w, b) && p < |w.periods| && i < |CommitmentsOf(w, w.periods[p].fund)|
    ensures var cs := CommitmentsOf(w, w.periods[p].fund);
      0 <= StandingShares(b.transfers, Partner(w, w.periods[p].fund, i), Through(w, p)) <= cs[i].committed
  {
    hide WorldOk, BusinessOk, LedgerOk, Linked, PointsBack, Partner, Standing, CommitmentsOf, BaseIn, BaseSum;
    var ts, a, periods := b.transfers, Partner(w, w.periods[p].fund, i), Through(w, p);
    BooksAreSound(w, b);
    LedgerParts(w, ts);
    ContributionsAreStandingCalls(w, ts, {a});
    ContributedWithin(w, b, w.periods[p].fund, i);
    var kept := k => if StandingIn(ts, periods, k) then ShareAt(ts, a, k) else 0;
    var all := k => -StandingTerm(ts, {a}, k);
    forall k: int | 0 <= k < |ts| ensures 0 <= kept(k) <= all(k) {
      if ts[k].kind == CapitalCall {
        CallShareNonNegative(w, b, w.periods[p].fund, i, k);
      }
    }
    SumByMonotone(Range(|ts|), kept, all);
    SumByMonotone(Range(|ts|), k => 0, kept);
    SumByZero(Range(|ts|), k => 0);
    SumByScales(Range(|ts|), -1, k => StandingTerm(ts, {a}, k), all);
  }

  lemma ContributedWithin(w: World, b: Books, fund: FundId, i: nat)
    requires BusinessOk(w, b) && i < |CommitmentsOf(w, fund)|
    ensures -BaseSum(b.transfers, {Partner(w, fund, i)}, AllPeriods(w), {CapitalCall})
      <= CommitmentsOf(w, fund)[i].committed
  {
    hide BooksOk, Linked, Replayable, OffGp, BaseSum, LpAccount;
    var c := CommitmentsOf(w, fund)[i];
    assert c in CommitmentsOf(w, fund);
    var k :| 0 <= k < |w.commitments| && w.commitments[k] == c;
    assert Contributed(w, b.transfers, LpAccount(w, w.commitments[k].fund, w.commitments[k].lp)) <= c.committed;
  }

  // ---- What a request does to contributions to date ------------------------------------------------------

  /** Every statement of every partner is in range. */
  ghost predicate AllInRange(w: World, ts: seq<Transfer>) {
    forall p: nat, i: nat :: p < |w.periods| && i < |CommitmentsOf(w, w.periods[p].fund)| ==> InRange(w, ts, p, i)
  }

  lemma ToDateMoves(w: World, ts: seq<Transfer>, t: Transfer, p: PeriodId, i: nat)
    requires WorldOk(w) && PointsBack(ts) && p < |w.periods| && i < |CommitmentsOf(w, w.periods[p].fund)|
    ensures ToDate(w, ts + [t], p, i) == ToDate(w, ts, p, i)
      - BaseTerm(ts + [t], t, {Partner(w, w.periods[p].fund, i)}, Through(w, p), {CapitalCall})
  {
    hide WorldOk, PointsBack, BaseSum, ToDate, Partner, BaseTerm;
    ToDateIsQuery(w, ts, p, i);
    ToDateIsQuery(w, ts + [t], p, i);
    BaseSumAppend(ts, t, {Partner(w, w.periods[p].fund, i)}, Through(w, p), {CapitalCall});
  }

  /** A call raises contributions to date by its share, in its period and in every later one of the fund. */
  lemma CallRaisesToDate(w: World, b: Books, req: Request, p: PeriodId, i: nat)
    requires WorldOk(w) && req.Call? && JustCreated(w, b, req) && PointsBack(b.transfers)
    requires p < |w.periods| && i < |CommitmentsOf(w, w.periods[p].fund)|
    ensures PlanFor(w, req.fund, req.total, req.notice, true).Ok?
    ensures var plan := PlanFor(w, req.fund, req.total, req.notice, true).value;
      ToDate(w, Execute(w, b, req).0.transfers, p, i) == ToDate(w, b.transfers, p, i) +
        if w.periods[p].fund == req.fund && plan.period <= p then plan.shares[i] else 0
    ensures w.periods[p].fund == req.fund ==>
      PlanFor(w, req.fund, req.total, req.notice, true).value.shares[i] >= 0
  {
    hide WorldOk, Execute, Created, Posted, PlanFor, BaseIn, PointsBack, ToDate, CommitmentsOf, LpAccount, DraftOf;
    CreatedFrom(w, b, req);
    AcceptedParts(w, b, req);
    var t := NewTransfer(w, b, req);
    ToDateMoves(w, b.transfers, t, p, i);
    CalledParts(w, b, req);
    CallDraft(w, req);
    PostedParts(w, b, DraftOf(w, req, None));
    PlanParts(w, req.fund, req.total, req.notice, true);
    if w.periods[p].fund == req.fund {
      CallCreditsShares(w, b, req, i);
    }
  }

  /** A reversal of a call takes its share back, in the period it is posted in and in every later one. */
  lemma ReversalLowersToDate(w: World, b: Books, req: Request, p: PeriodId, i: nat)
    requires WorldOk(w) && req.Reverse? && JustCreated(w, b, req) && LedgerOk(w, b.transfers)
    requires p < |w.periods| && i < |CommitmentsOf(w, w.periods[p].fund)|
    ensures req.target < |b.transfers| && req.period < |w.periods|
    ensures ToDate(w, Execute(w, b, req).0.transfers, p, i) == ToDate(w, b.transfers, p, i) -
      if b.transfers[req.target].kind == CapitalCall && w.periods[p].fund == w.periods[req.period].fund
         && req.period <= p
      then ShareAt(b.transfers, Partner(w, w.periods[p].fund, i), req.target) else 0
  {
    hide WorldOk, Execute, Created, Posted, BaseIn, ToDate, CommitmentsOf, Partner, LedgerOk, Prepare, PointsBack;
    CreatedFrom(w, b, req);
    var d := DraftOf(w, req, SourceOf(b.transfers, req));
    var t := NewTransfer(w, b, req);
    PostedParts(w, b, d);
    LedgerParts(w, b.transfers);
    TransfersPointBack(w, b.transfers);
    ToDateMoves(w, b.transfers, t, p, i);
    ReversalFlips(w, b, d, {Partner(w, w.periods[p].fund, i)});
  }

  lemma ReversalFlips(w: World, b: Books, d: Draft, a: set<AccountId>)
    requires LedgerOk(w, b.transfers) && DraftFits(b.transfers, d) && Posted(w, b, d).Ok? && d.reverses.Some?
    ensures d.reverses.value < |b.transfers|
    ensures BaseIn(Posted(w, b, d).value.entries, a) == -BaseIn(b.transfers[d.reverses.value].entries, a)
  {
    hide Posted, BaseIn, UniqueKeys, UniqueReversals, CashNonNegative;
    var j := d.reverses.value;
    PostedTransferOk(w, b, d);
    PostedParts(w, b, d);
    assert TransferOk(w, b.transfers[..j], b.transfers[j]);
    FlipNegates(b.transfers[j].entries, a);
  }

  /** Nothing else moves them. */
  lemma OthersKeepToDate(w: World, b: Books, req: Request, p: PeriodId, i: nat)
    requires WorldOk(w) && Business(w, req) && (req.PostLegs? || req.Distribute?) && JustCreated(w, b, req)
    requires PointsBack(b.transfers) && p < |w.periods| && i < |CommitmentsOf(w, w.periods[p].fund)|
    ensures ToDate(w, Execute(w, b, req).0.transfers, p, i) == ToDate(w, b.transfers, p, i)
  {
    hide WorldOk, Execute, Created, Posted, BaseIn, ToDate, CommitmentsOf, Partner, PointsBack, PlanFor;
    CreatedFrom(w, b, req);
    PostedParts(w, b, DraftOf(w, req, SourceOf(b.transfers, req)));
    ToDateMoves(w, b.transfers, NewTransfer(w, b, req), p, i);
  }

  /** A call never credits a partner a negative share. */
  lemma CallShareNonNegative(w: World, b: Books, fund: FundId, i: nat, j: nat)
    requires WorldOk(w) && Linked(w, b) && j < |b.transfers| && b.transfers[j].kind == CapitalCall
    requires i < |CommitmentsOf(w, fund)|
    ensures ShareAt(b.transfers, Partner(w, fund, i), j) >= 0
  {
    hide WorldOk, BaseIn;
    assert CommitmentsOf(w, fund)[i] in CommitmentsOf(w, fund);
    PartnerAccount(w, fund, CommitmentsOf(w, fund)[i]);
    assert HasCall(b.calls, j);
    var n :| 0 <= n < |b.calls| && b.calls[n].transfer == j;
    assert CallFits(w, b.transfers[j], b.calls[n].fund, b.calls[n].total);
  }

  // ---- Which requests keep every statement in range ------------------------------------------------------

  /**
   * What a caller can check beforehand. A call: no share exceeds what any statement from its period on has left. A
   * reversal of a call: every statement from the reversal's period on shows at least the share it takes back.
   */
  ghost predicate Careful(w: World, b: Books, req: Request) {
    match req
    case Call(_, fund, total, notice, _, _) =>
      var plan := PlanFor(w, fund, total, notice, true);
      plan.Ok? ==> forall p: nat, i: nat ::
        plan.value.period <= p < |w.periods| && w.periods[p].fund == fund && i < |CommitmentsOf(w, fund)| ==>
          plan.value.shares[i] <= StatementOf(w, b.transfers, p, i).unfunded
    case Reverse(_, target, period, _) =>
      target < |b.transfers| && b.transfers[target].kind == CapitalCall && period < |w.periods| ==>
        forall p: nat, i: nat ::
          period <= p < |w.periods| && w.periods[p].fund == w.periods[period].fund
          && i < |CommitmentsOf(w, w.periods[p].fund)| ==>
            ShareAt(b.transfers, Partner(w, w.periods[p].fund, i), target) <= ToDate(w, b.transfers, p, i)
    case _ => true
  }

  lemma StatementsAfterCall(w: World, b: Books, req: Request, p: PeriodId, i: nat)
    requires WorldOk(w) && req.Call? && JustCreated(w, b, req) && PointsBack(b.transfers)
    requires p < |w.periods| && i < |CommitmentsOf(w, w.periods[p].fund)| && InRange(w, b.transfers, p, i)
    ensures PlanFor(w, req.fund, req.total, req.notice, true).Ok?
    ensures var plan := PlanFor(w, req.fund, req.total, req.notice, true).value;
      InRange(w, Execute(w, b, req).0.transfers, p, i) <==>
        (plan.period <= p && w.periods[p].fund == req.fund ==>
           plan.shares[i] <= StatementOf(w, b.transfers, p, i).unfunded)
  {
    hide WorldOk, Execute, PlanFor, PointsBack, StatementOf, ToDate, CommitmentsOf;
    CallRaisesToDate(w, b, req, p, i);
    StatementParts(w, b.transfers, p, i);
    StatementParts(w, Execute(w, b, req).0.transfers, p, i);
  }

  lemma StatementsAfterReversal(w: World, b: Books, req: Request, p: PeriodId, i: nat)
    requires WorldOk(w) && req.Reverse? && JustCreated(w, b, req) && LedgerOk(w, b.transfers) && Linked(w, b)
    requires p < |w.periods| && i < |CommitmentsOf(w, w.periods[p].fund)| && InRange(w, b.transfers, p, i)
    ensures req.target < |b.transfers| && req.period < |w.periods|
    ensures InRange(w, Execute(w, b, req).0.transfers, p, i) <==>
      (b.transfers[req.target].kind == CapitalCall && req.period <= p
       && w.periods[p].fund == w.periods[req.period].fund ==>
         ShareAt(b.transfers, Partner(w, w.periods[p].fund, i), req.target) <= ToDate(w, b.transfers, p, i))
  {
    hide WorldOk, Execute, LedgerOk, Linked, StatementOf, ToDate, CommitmentsOf, ShareAt, Partner;
    ReversalLowersToDate(w, b, req, p, i);
    StatementParts(w, b.transfers, p, i);
    StatementParts(w, Execute(w, b, req).0.transfers, p, i);
    if b.transfers[req.target].kind == CapitalCall {
      CallShareNonNegative(w, b, w.periods[p].fund, i, req.target);
    }
  }

  /** Books in which every statement is in range stay so under an accepted request exactly when it is careful. */
  lemma StepKeepsRangeIff(w: World, b: Books, req: Request)
    requires WorldOk(w) && BusinessOk(w, b) && Business(w, req) && AllInRange(w, b.transfers) && JustCreated(w, b, req)
    ensures AllInRange(w, Execute(w, b, req).0.transfers) <==> Careful(w, b, req)
  {
    hide WorldOk, BusinessOk, AllInRange, Business, Execute, LedgerOk, Linked, PointsBack;
    BooksAreSound(w, b);
    if req.Call? {
      CallKeepsRangeIff(w, b, req);
    } else if req.Reverse? {
      ReversalKeepsRangeIff(w, b, req);
    } else {
      OthersKeepRange(w, b, req);
    }
  }

  lemma OthersKeepRange(w: World, b: Books, req: Request)
    requires WorldOk(w) && PointsBack(b.transfers) && Business(w, req) && AllInRange(w, b.transfers)
    requires (req.PostLegs? || req.Distribute?) && JustCreated(w, b, req)
    ensures AllInRange(w, Execute(w, b, req).0.transfers)
  {
    hide WorldOk, Business, Execute, StatementOf, CommitmentsOf, PointsBack;
    forall p: nat, i: nat | p < |w.periods| && i < |CommitmentsOf(w, w.periods[p].fund)|
      ensures InRange(w, Execute(w, b, req).0.transfers, p, i)
    {
      assert InRange(w, b.transfers, p, i);
      OthersKeepToDate(w, b, req, p, i);
      StatementParts(w, b.transfers, p, i);
      StatementParts(w, Execute(w, b, req).0.transfers, p, i);
    }
  }

  lemma BooksAreSound(w: World, b: Books)
    requires BusinessOk(w, b)
    ensures LedgerOk(w, b.transfers) && Linked(w, b) && PointsBack(b.transfers)
  {
    TransfersPointBack(w, b.transfers);
  }

  lemma CallKeepsRangeIff(w: World, b: Books, req: Request)
    requires WorldOk(w) && PointsBack(b.transfers) && AllInRange(w, b.transfers) && req.Call? && JustCreated(w, b, req)
    ensures AllInRange(w, Execute(w, b, req).0.transfers) <==> Careful(w, b, req)
  {
    hide WorldOk, PointsBack, Execute, StatementOf, CommitmentsOf, PlanFor, InRange;
    var after := Execute(w, b, req).0.transfers;
    AcceptedParts(w, b, req);
    var plan := PlanFor(w, req.fund, req.total, req.notice, true).value;
    if Careful(w, b, req) {
      forall p: nat, i: nat | p < |w.periods| && i < |CommitmentsOf(w, w.periods[p].fund)|
        ensures InRange(w, after, p, i)
      {
        assert InRange(w, b.transfers, p, i);
        StatementsAfterCall(w, b, req, p, i);
      }
    }
    if AllInRange(w, after) {
      forall p: nat, i: nat
        | plan.period <= p < |w.periods| && w.periods[p].fund == req.fund && i < |CommitmentsOf(w, req.fund)|
        ensures plan.shares[i] <= StatementOf(w, b.transfers, p, i).unfunded
      {
        assert InRange(w, b.transfers, p, i) && InRange(w, after, p, i);
        StatementsAfterCall(w, b, req, p, i);
      }
    }
  }

  lemma ReversalKeepsRangeIff(w: World, b: Books, req: Request)
    requires WorldOk(w) && LedgerOk(w, b.transfers) && Linked(w, b) && AllInRange(w, b.transfers)
    requires req.Reverse? && JustCreated(w, b, req)
    ensures AllInRange(w, Execute(w, b, req).0.transfers) <==> Careful(w, b, req)
  {
    hide WorldOk, LedgerOk, Linked, Execute, ToDate, CommitmentsOf, InRange, ShareAt, Partner;
    var after := Execute(w, b, req).0.transfers;
    ReversalFound(w, b, req);
    if Careful(w, b, req) {
      forall p: nat, i: nat | p < |w.periods| && i < |CommitmentsOf(w, w.periods[p].fund)|
        ensures InRange(w, after, p, i)
      {
        assert InRange(w, b.transfers, p, i);
        StatementsAfterReversal(w, b, req, p, i);
      }
    }
    if AllInRange(w, after) && b.transfers[req.target].kind == CapitalCall {
      forall p: nat, i: nat
        | req.period <= p < |w.periods| && w.periods[p].fund == w.periods[req.period].fund
          && i < |CommitmentsOf(w, w.periods[p].fund)|
        ensures ShareAt(b.transfers, Partner(w, w.periods[p].fund, i), req.target) <= ToDate(w, b.transfers, p, i)
      {
        assert InRange(w, b.transfers, p, i) && InRange(w, after, p, i);
        StatementsAfterReversal(w, b, req, p, i);
      }
    }
  }

  lemma ReversalFound(w: World, b: Books, req: Request)
    requires req.Reverse? && JustCreated(w, b, req)
    ensures req.target < |b.transfers| && req.period < |w.periods|
  {
    hide Execute, Created, Posted, Prepare, ReversalIndex;
    CreatedFrom(w, b, req);
    PostedParts(w, b, DraftOf(w, req, SourceOf(b.transfers, req)));
  }

  // ---- Runs ----------------------------------------------------------------------------------------------

  lemma NothingCreatedNothingMoves(w: World, b: Books, req: Request)
    requires !JustCreated(w, b, req)
    ensures Execute(w, b, req).0.transfers == b.transfers
  {
    hide Created, KeyIndex, ReversalIndex, HashOf, ValidLegs;
  }

  lemma NothingContributedYet(w: World)
    requires WorldOk(w)
    ensures AllInRange(w, [])
  {
    hide WorldOk, StatementOf, LpAccount;
    forall p: nat, i: nat | p < |w.periods| && i < |CommitmentsOf(w, w.periods[p].fund)| ensures InRange(w, [], p, i) {
      ToDateIsQuery(w, [], p, i);
      StatementParts(w, [], p, i);
      assert CommitmentsOf(w, w.periods[p].fund)[i] in CommitmentsOf(w, w.periods[p].fund);
      PartnerAccount(w, w.periods[p].fund, CommitmentsOf(w, w.periods[p].fund)[i]);
    }
  }

  /** Request k of a serial run, at its turn. */
  ghost predicate CarefulAt(w: World, reqs: seq<Request>, k: nat)
    requires k < |reqs|
  {
    var b := ExecuteAll(w, EmptyBooks, reqs[..k]);
    JustCreated(w, b, reqs[k]) ==> Careful(w, b, reqs[k])
  }

  /** All statements are in range after every prefix of a serial run exactly when each accepted request is careful. */
  lemma {:induction false} SerialRunsInRangeIff(w: World, reqs: seq<Request>)
    requires WorldOk(w) && forall k :: 0 <= k < |reqs| ==> Business(w, reqs[k])
    ensures (forall n :: 0 <= n <= |reqs| ==> AllInRange(w, ExecuteAll(w, EmptyBooks, reqs[..n]).transfers))
      <==> (forall k :: 0 <= k < |reqs| ==> CarefulAt(w, reqs, k))
  {
    hide WorldOk, Business, AllInRange, Execute, Careful, BusinessOk, JustCreated;
    if reqs == [] {
      NothingContributedYet(w);
      assert reqs[..0] == [];
    } else {
      var m := |reqs| - 1;
      var front, b := reqs[..m], ExecuteAll(w, EmptyBooks, reqs[..m]);
      SerialRunsInRangeIff(w, front);
      forall n | 0 <= n <= m ensures front[..n] == reqs[..n] {
      }
      forall k | 0 <= k < m ensures CarefulAt(w, front, k) <==> CarefulAt(w, reqs, k) {
        assert front[..k] == reqs[..k];
      }
      assert reqs[..|reqs|] == reqs && front == front[..m];
      RunsKeepCommitments(w, front);
      if AllInRange(w, b.transfers) {
        LastStepKeepsRange(w, reqs);
      }
    }
  }

  lemma LastStepKeepsRange(w: World, reqs: seq<Request>)
    requires WorldOk(w) && reqs != [] && Business(w, reqs[|reqs| - 1])
    requires var b := ExecuteAll(w, EmptyBooks, reqs[..|reqs| - 1]); BusinessOk(w, b) && AllInRange(w, b.transfers)
    ensures AllInRange(w, ExecuteAll(w, EmptyBooks, reqs).transfers) <==> CarefulAt(w, reqs, |reqs| - 1)
  {
    hide WorldOk, Business, AllInRange, Execute, Careful, BusinessOk, JustCreated;
    var m := |reqs| - 1;
    var b := ExecuteAll(w, EmptyBooks, reqs[..m]);
    if JustCreated(w, b, reqs[m]) {
      StepKeepsRangeIff(w, b, reqs[m]);
    } else {
      NothingCreatedNothingMoves(w, b, reqs[m]);
    }
  }

  /** In an interleaved run whose commits are all careful at their turn, every statement of every period is in range. */
  lemma CarefulRunsStayInRange(w: World, actions: seq<Action>)
    requires WorldOk(w) && BusinessActions(w, actions)
    requires var log := Run(w, actions).log; forall k :: 0 <= k < |log| ==> CarefulAt(w, log, k)
    ensures AllInRange(w, Run(w, actions).books.transfers)
  {
    hide WorldOk, Business, AllInRange, Execute, CarefulAt, Run, ExecuteAll, Accepted;
    var s, c := Run(w, actions), Committers(w, actions);
    RunsRefineSerial(w, actions);
    LogIsOwned(w, actions);
    forall k | 0 <= k < |s.log| ensures Business(w, s.log[k]) {
      assert Owns(w, s, c[k], k);
    }
    SerialRunsInRangeIff(w, s.log);
    assert s.log[..|s.log|] == s.log;
  }
}
