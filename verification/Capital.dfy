/** Paid-in capital: what calls and their reversals do to each partner (operations/services.py, queries.py). */
module Capital {
  import opened Results
  import opened Sums
  import opened Sorting
  import opened Types
  import opened Chart
  import opened Queries
  import opened Posting
  import opened Operations
  import opened Invariants
  import Allocation
  import Pricing

  // ---- The entries of a pro-rata posting -----------------------------------------------------------------

  /** The signed amounts of the legs on a set of accounts. */
  function LegsIn(legs: seq<Leg>, a: set<AccountId>): int {
    SumBy(legs, (l: Leg) => if l.account in a then Sign(l.direction) * l.amount else 0)
  }

  ghost predicate BaseLegs(w: World, fund: FundId, legs: seq<Leg>) {
    && (forall i :: 0 <= i < |legs| ==> legs[i].base.None?)
    && (forall i :: 0 <= i < |legs| && legs[i].account < |w.accounts| ==>
          w.accounts[legs[i].account].currency == BaseCurrency(w, fund))
  }

  /** Legs in the base currency are booked at face value. */
  lemma BaseLegsAtFaceValue(w: World, fund: FundId, on: Date, legs: seq<Leg>)
    requires Pricing.KnownAccounts(w, legs) && BaseLegs(w, fund, legs)
    ensures var r := Pricing.Price(w, BaseCurrency(w, fund), on, legs);
      && r.Ok? && |r.value| == |legs|
      && forall i :: 0 <= i < |legs| ==>
           r.value[i].account == legs[i].account && SignedBase(r.value[i]) == Sign(legs[i].direction) * legs[i].amount
  {
    var base := BaseCurrency(w, fund);
    forall i | 0 <= i < |legs|
      ensures Pricing.PriceLeg(w, base, on, legs[i]) ==
        Ok(PricedLeg(Entry(legs[i].account, legs[i].direction, legs[i].amount, base, None, legs[i].amount), false))
    {
    }
    var priced := Pricing.PriceEach(w, base, on, legs);
    assert priced.Ok?;
    Pricing.CountIsZeroIff(priced.value);
  }

  lemma {:induction false} EntriesFollowLegs(entries: seq<Entry>, legs: seq<Leg>, a: set<AccountId>)
    requires |entries| == |legs|
    requires forall i :: 0 <= i < |legs| ==>
      entries[i].account == legs[i].account && SignedBase(entries[i]) == Sign(legs[i].direction) * legs[i].amount
    ensures BaseIn(entries, a) == LegsIn(legs, a)
  {
    if legs != [] {
      var n := |legs| - 1;
      EntriesFollowLegs(entries[..n], legs[..n], a);
    }
  }

  function ShareIn(w: World, fund: FundId, row: ShareRow, a: set<AccountId>): int {
    if LpAccount(w, fund, row.lp) in a then row.share else 0
  }

  lemma PairIn(w: World, fund: FundId, row: ShareRow, call: bool, a: set<AccountId>)
    requires CashAccount(w, fund) !in a
    ensures LegsIn(LegPair(w, fund, row, call), a) == (if call then -1 else 1) * ShareIn(w, fund, row, a)
  {
    var legs := LegPair(w, fund, row, call);
    var f := (l: Leg) => if l.account in a then Sign(l.direction) * l.amount else 0;
    if row.share != 0 {
      assert legs == ([] + [legs[0]]) + [legs[1]];
      SumByAppend([], legs[0], f);
      SumByAppend([] + [legs[0]], legs[1], f);
    }
  }

  lemma {:induction false} ShareLegsIn(w: World, fund: FundId, rows: seq<ShareRow>, call: bool, a: set<AccountId>)
    requires CashAccount(w, fund) !in a
    ensures LegsIn(ShareLegs(w, fund, rows, call), a)
      == (if call then -1 else 1) * SumBy(rows, row => ShareIn(w, fund, row, a))
  {
    if rows != [] {
      var n := |rows| - 1;
      ShareLegsIn(w, fund, rows[..n], call, a);
      PairIn(w, fund, rows[n], call, a);
      SumByConcat(ShareLegs(w, fund, rows[..n], call), LegPair(w, fund, rows[n], call),
                  (l: Leg) => if l.account in a then Sign(l.direction) * l.amount else 0);
    }
  }

  lemma ByLpIsTotalOrder()
    ensures TotalOrder(ByLp)
  {
    StrLeIsTotalOrder();
  }

  /** Sorting the partners changes no total. */
  lemma PlanLegsIn(w: World, fund: FundId, total: int, on: Date, call: bool, a: set<AccountId>)
    requires PlanFor(w, fund, total, on, call).Ok? && CashAccount(w, fund) !in a
    ensures var p := PlanFor(w, fund, total, on, call).value;
      LegsIn(p.legs, a) == (if call then -1 else 1) *
        SumBy(ShareRows(CommitmentsOf(w, fund), p.shares), row => ShareIn(w, fund, row, a))
  {
    var p := PlanFor(w, fund, total, on, call).value;
    var rows := ShareRows(CommitmentsOf(w, fund), p.shares);
    ByLpIsTotalOrder();
    SortCorrect(rows, ByLp);
    ShareLegsIn(w, fund, Sort(rows, ByLp), call, a);
    SumByPermutation(Sort(rows, ByLp), rows, row => ShareIn(w, fund, row, a));
  }

  predicate LegOfRow(w: World, fund: FundId, row: ShareRow, l: Leg) {
    && l.base.None? && l.amount == row.share
    && (l.account == CashAccount(w, fund) || l.account == LpAccount(w, fund, row.lp))
  }

  lemma {:induction false} ShareLegsShape(w: World, fund: FundId, rows: seq<ShareRow>, call: bool, l: Leg)
    requires l in ShareLegs(w, fund, rows, call)
    ensures exists row :: row in rows && LegOfRow(w, fund, row, l)
  {
    var n := |rows| - 1;
    if l in LegPair(w, fund, rows[n], call) {
      assert LegOfRow(w, fund, rows[n], l);
    } else {
      ShareLegsShape(w, fund, rows[..n], call, l);
      var row :| row in rows[..n] && LegOfRow(w, fund, row, l);
      assert row in rows;
    }
  }

  lemma PeriodForFund(w: World, fund: FundId, on: Date)
    requires PeriodFor(w, fund, on) < |w.periods|
    ensures w.periods[PeriodFor(w, fund, on)].fund == fund
  {
  }

  lemma PlanParts(w: World, fund: FundId, total: int, on: Date, call: bool)
    requires PlanFor(w, fund, total, on, call).Ok?
    ensures var p := PlanFor(w, fund, total, on, call).value;
      && p.legs == ShareLegs(w, fund, Sort(ShareRows(CommitmentsOf(w, fund), p.shares), ByLp), call)
      && w.periods[p.period].fund == fund
  {
    PeriodForFund(w, fund, on);
    hide PeriodFor, ShareLegs, Sort, CommitmentsOf;
  }

  /** Every leg of a plan is on the fund's cash account or on a partner's capital account, in base currency. */
  lemma PlanLegsShape(w: World, fund: FundId, total: int, on: Date, call: bool)
    requires WorldOk(w) && PlanFor(w, fund, total, on, call).Ok?
    ensures BaseLegs(w, fund, PlanFor(w, fund, total, on, call).value.legs)
    ensures forall l :: l in PlanFor(w, fund, total, on, call).value.legs ==>
      l.account < |w.accounts| && (w.accounts[l.account].kind == Cash || w.accounts[l.account].kind == LpCapital)
  {
    hide WorldOk, PlanFor, CommitmentsOf, ShareLegs, Sort, LpAccount, CashAccount;
    var p := PlanFor(w, fund, total, on, call).value;
    var rows := ShareRows(CommitmentsOf(w, fund), p.shares);
    PlanParts(w, fund, total, on, call);
    ByLpIsTotalOrder();
    SortCorrect(rows, ByLp);
    forall l | l in p.legs
      ensures l.base.None? && l.account < |w.accounts| && w.accounts[l.account].currency == BaseCurrency(w, fund)
      ensures w.accounts[l.account].kind == Cash || w.accounts[l.account].kind == LpCapital
    {
      ShareLegsShape(w, fund, Sort(rows, ByLp), call, l);
      var row :| row in Sort(rows, ByLp) && LegOfRow(w, fund, row, l);
      assert row in multiset(rows);
      var k :| 0 <= k < |rows| && rows[k] == row;
      assert CommitmentsOf(w, fund)[k] in CommitmentsOf(w, fund);
      PartnerAccount(w, fund, CommitmentsOf(w, fund)[k]);
    }
  }

  /** One partner's rows sum to that partner's share. */
  lemma OnePartnersShare(w: World, fund: FundId, shares: seq<int>, i: nat)
    requires WorldOk(w) && |shares| == |CommitmentsOf(w, fund)| && i < |shares|
    ensures var cs := CommitmentsOf(w, fund);
      SumBy(ShareRows(cs, shares), row => ShareIn(w, fund, row, {LpAccount(w, fund, cs[i].lp)})) == shares[i]
  {
    var cs := CommitmentsOf(w, fund);
    var rows := ShareRows(cs, shares);
    var a := {LpAccount(w, fund, cs[i].lp)};
    var f := row => ShareIn(w, fund, row, a);
    PartnersDistinct(w, fund);
    SumByOnlyOne(rows, i, f);
  }

  /** All partners' rows sum to the total. */
  lemma AllPartnersShares(w: World, fund: FundId, shares: seq<int>)
    requires WorldOk(w) && |shares| == |CommitmentsOf(w, fund)|
    ensures SumBy(ShareRows(CommitmentsOf(w, fund), shares),
                  row => ShareIn(w, fund, row, FundAccounts(w, fund, {LpCapital}))) == Sum(shares)
  {
    var cs := CommitmentsOf(w, fund);
    var rows := ShareRows(cs, shares);
    var a := FundAccounts(w, fund, {LpCapital});
    forall k | 0 <= k < |rows| ensures ShareIn(w, fund, rows[k], a) == shares[k] {
      assert cs[k] in cs;
      PartnerAccount(w, fund, cs[k]);
    }
    SumOfRows(rows, shares, row => ShareIn(w, fund, row, a));
  }

  lemma {:induction false} SumOfRows<T>(rows: seq<T>, s: seq<int>, f: T -> int)
    requires |rows| == |s| && forall k :: 0 <= k < |rows| ==> f(rows[k]) == s[k]
    ensures SumBy(rows, f) == Sum(s)
  {
    if rows != [] {
      SumOfRows(rows[..|rows| - 1], s[..|s| - 1], f);
    }
  }

  // ---- A capital call, posted ----------------------------------------------------------------------------

  ghost predicate Called(w: World, b: Books, req: Request) {
    req.Call? && WorldOk(w) && Created(w, b, req, None).Ok?
  }

  function CallTransfer(w: World, b: Books, req: Request): Transfer
    requires req.Call? && Posted(w, b, DraftOf(w, req, None)).Ok?
  {
    Posted(w, b, DraftOf(w, req, None)).value
  }

  lemma CalledParts(w: World, b: Books, req: Request)
    requires Called(w, b, req)
    ensures PlanFor(w, req.fund, req.total, req.notice, true).Ok? && req.total > 0
    ensures CommitmentsAllow(w, b.transfers, req.fund, PlanFor(w, req.fund, req.total, req.notice, true).value.shares)
    ensures Posted(w, b, DraftOf(w, req, None)).Ok?
    ensures var t := CallTransfer(w, b, req);
      && t.kind == CapitalCall && t.reverses.None?
      && Created(w, b, req, None).value == WithDocument(AddTransfer(b, t), req, NextNumber(b, req), |b.transfers|)
  {
    hide WorldOk, PlanFor, CommitmentsAllow, WithDocument, NextNumber, Prepare, Sufficient, PositiveRows, KeyIndex;
    hide ReverseFree, TransferRowError;
  }

  /** What a posted plan books on any set of accounts that leaves out the fund's cash. */
  lemma PlanEntriesIn(w: World, open: bool, fund: FundId, total: int, on: Date, call: bool, d: Draft, a: set<AccountId>)
    requires WorldOk(w) && PlanFor(w, fund, total, on, call).Ok? && CashAccount(w, fund) !in a
    requires d.legs == PlanFor(w, fund, total, on, call).value.legs && Prepare(w, open, d).Ok?
    requires d.period == PlanFor(w, fund, total, on, call).value.period
    ensures BaseIn(Prepare(w, open, d).value, a) == (if call then -1 else 1) *
      SumBy(ShareRows(CommitmentsOf(w, fund), PlanFor(w, fund, total, on, call).value.shares),
            row => ShareIn(w, fund, row, a))
  {
    PreparedDraft(w, open, d);
    PeriodForFund(w, fund, on);
    PlanLegsShape(w, fund, total, on, call);
    BaseLegsAtFaceValue(w, fund, d.fxDate, d.legs);
    EntriesFollowLegs(Prepare(w, open, d).value, d.legs, a);
    PlanLegsIn(w, fund, total, on, call, a);
  }

  function CallShares(w: World, req: Request): seq<int>
    requires req.Call? && PlanFor(w, req.fund, req.total, req.notice, true).Ok?
  {
    PlanFor(w, req.fund, req.total, req.notice, true).value.shares
  }

  lemma CallEntriesIn(w: World, b: Books, req: Request, a: set<AccountId>)
    requires Called(w, b, req) && CashAccount(w, req.fund) !in a
    ensures PlanFor(w, req.fund, req.total, req.notice, true).Ok? && Posted(w, b, DraftOf(w, req, None)).Ok?
    ensures BaseIn(CallTransfer(w, b, req).entries, a) ==
      -SumBy(ShareRows(CommitmentsOf(w, req.fund), CallShares(w, req)), row => ShareIn(w, req.fund, row, a))
  {
    CalledParts(w, b, req);
    var d := DraftOf(w, req, None);
    CallDraft(w, req);
    PostedParts(w, b, d);
    PlanEntriesIn(w, true, req.fund, req.total, req.notice, true, d, a);
  }

  lemma CallDraft(w: World, req: Request)
    requires req.Call? && PlanFor(w, req.fund, req.total, req.notice, true).Ok?
    ensures var p := PlanFor(w, req.fund, req.total, req.notice, true).value;
      DraftOf(w, req, None).legs == p.legs && DraftOf(w, req, None).period == p.period
  {
  }

  /** The shares of a plan, as `allocate` promises them. */
  lemma PlanShares(w: World, fund: FundId, total: int, on: Date, call: bool)
    requires PlanFor(w, fund, total, on, call).Ok? && total > 0
    ensures var shares := PlanFor(w, fund, total, on, call).value.shares;
      && Sum(shares) == total
      && CommitmentsOf(w, fund) != []
      && forall i :: 0 <= i < |shares| ==> shares[i] >= 0
  {
    var items := Items(CommitmentsOf(w, fund));
    Allocation.SucceedsIff(total, items, PENNY);
    Allocation.SharesSumToTotal(total, items, PENNY);
    forall i | 0 <= i < |items| ensures Allocation.Allocated(total, items, PENNY).value[i] >= 0 {
      Allocation.SharesKeepSign(total, items, PENNY, i);
    }
  }

  lemma CashIsNotCapital(w: World, fund: FundId)
    requires WorldOk(w) && CommitmentsOf(w, fund) != []
    ensures CashAccount(w, fund) !in FundAccounts(w, fund, {LpCapital})
    ensures forall i :: 0 <= i < |CommitmentsOf(w, fund)| ==>
      CashAccount(w, fund) != LpAccount(w, fund, CommitmentsOf(w, fund)[i].lp)
  {
    var cs := CommitmentsOf(w, fund);
    forall i | 0 <= i < |cs| ensures CashAccount(w, fund) != LpAccount(w, fund, cs[i].lp) {
      assert cs[i] in cs;
      PartnerAccount(w, fund, cs[i]);
    }
    assert cs[0] in cs;
    PartnerAccount(w, fund, cs[0]);
  }

  /** A call credits each partner its share, which is never negative. */
  lemma CallCreditsShares(w: World, b: Books, req: Request, i: nat)
    requires Called(w, b, req) && i < |CommitmentsOf(w, req.fund)|
    ensures PlanFor(w, req.fund, req.total, req.notice, true).Ok? && Posted(w, b, DraftOf(w, req, None)).Ok?
    ensures CallShares(w, req)[i] >= 0
    ensures BaseIn(CallTransfer(w, b, req).entries, {LpAccount(w, req.fund, CommitmentsOf(w, req.fund)[i].lp)})
      == -CallShares(w, req)[i]
  {
    hide WorldOk, Created, Posted, PlanFor, DraftOf, BaseIn, CommitmentsOf, LpAccount, CashAccount;
    CalledParts(w, b, req);
    PlanShares(w, req.fund, req.total, req.notice, true);
    CashIsNotCapital(w, req.fund);
    CallEntriesIn(w, b, req, {LpAccount(w, req.fund, CommitmentsOf(w, req.fund)[i].lp)});
    OnePartnersShare(w, req.fund, CallShares(w, req), i);
  }

  /** A call credits the fund's partners exactly its total. */
  lemma CallCreditsTotal(w: World, b: Books, req: Request)
    requires Called(w, b, req)
    ensures Posted(w, b, DraftOf(w, req, None)).Ok?
    ensures BaseIn(CallTransfer(w, b, req).entries, FundAccounts(w, req.fund, {LpCapital})) == -req.total
  {
    hide WorldOk, Created, Posted, PlanFor, DraftOf, BaseIn, CommitmentsOf, LpAccount, CashAccount, FundAccounts;
    CalledParts(w, b, req);
    PlanShares(w, req.fund, req.total, req.notice, true);
    CashIsNotCapital(w, req.fund);
    CallEntriesIn(w, b, req, FundAccounts(w, req.fund, {LpCapital}));
    AllPartnersShares(w, req.fund, CallShares(w, req));
  }

  // ---- Calls still standing ------------------------------------------------------------------------------

  predicate Standing(ts: seq<Transfer>, i: nat) { ReversalIndex(ts, i) == |ts| }

  function StandingTerm(ts: seq<Transfer>, a: set<AccountId>, i: int): int {
    if 0 <= i < |ts| && ts[i].kind == CapitalCall && Standing(ts, i) then BaseIn(ts[i].entries, a) else 0
  }

  lemma {:induction false} FlipNegates(entries: seq<Entry>, a: set<AccountId>)
    requires forall i :: 0 <= i < |entries| ==> !entries[i].direction.Unknown?
    ensures BaseIn(FlippedEntries(entries), a) == -BaseIn(entries, a)
  {
    if entries != [] {
      var n := |entries| - 1;
      FlipNegates(entries[..n], a);
      assert FlippedEntries(entries)[..n] == FlippedEntries(entries[..n]);
    }
  }

  lemma TransfersPointBack(w: World, ts: seq<Transfer>)
    requires TransfersOk(w, ts)
    ensures PointsBack(ts)
  {
    forall i | 0 <= i < |ts| && ts[i].reverses.Some? ensures ts[i].reverses.value < i {
      assert TransferOk(w, ts[..i], ts[i]);
    }
  }

  lemma FrontLedgerOk(w: World, ts: seq<Transfer>)
    requires TransfersOk(w, ts) && UniqueReversals(ts) && ts != []
    ensures TransfersOk(w, ts[..|ts| - 1]) && UniqueReversals(ts[..|ts| - 1])
  {
    var front := ts[..|ts| - 1];
    forall i | 0 <= i < |front| ensures TransferOk(w, front[..i], front[i]) {
      assert front[..i] == ts[..i];
      assert TransferOk(w, ts[..i], ts[i]);
    }
  }

  /** The reversal of transfer i was posted in one of the periods. */
  predicate ReversedIn(ts: seq<Transfer>, i: nat, p: set<PeriodId>) {
    var r := ReversalIndex(ts, i);
    r < |ts| && ts[r].period in p
  }

  /** What call i books in a set of periods, less what its reversal takes back in them. */
  function CarriedTerm(ts: seq<Transfer>, a: set<AccountId>, p: set<PeriodId>, i: int): int {
    if !(0 <= i < |ts|) || ts[i].kind != CapitalCall then 0
    else
      (if ts[i].period in p then BaseIn(ts[i].entries, a) else 0)
      - (if ReversedIn(ts, i, p) then BaseIn(ts[i].entries, a) else 0)
  }

  lemma ReversalIndexAfter(ts: seq<Transfer>, t: Transfer, i: nat)
    ensures var r := ReversalIndex(ts, i);
      ReversalIndex(ts + [t], i) == if r < |ts| then r else if t.reverses == Some(i) then |ts| else |ts| + 1
  {
    hide ReversalIndex;
    var all, r := ts + [t], ReversalIndex(ts, i);
    assert forall j :: 0 <= j < |ts| ==> all[j] == ts[j];
    assert all[|ts|] == t;
    if r < |ts| {
      assert all[r].reverses == Some(i);
    }
  }

  /**
   * The capital calls booked in a set of periods, reversals counted where they are posted: each call that falls in
   * them, less each call whose reversal does.
   */
  lemma {:induction false} CallsCarried(w: World, ts: seq<Transfer>, a: set<AccountId>, p: set<PeriodId>)
    requires TransfersOk(w, ts) && UniqueReversals(ts)
    ensures BaseSum(ts, a, p, {CapitalCall}) == SumBy(Range(|ts|), i => CarriedTerm(ts, a, p, i))
  {
    hide TransfersOk, UniqueReversals, CarriedTerm, BaseIn;
    if ts == [] {
    } else {
      var n := |ts| - 1;
      var front, t := ts[..n], ts[n];
      assert ts == front + [t];
      FrontLedgerOk(w, ts);
      CallsCarried(w, front, a, p);
      TransfersPointBack(w, front);
      BaseSumAppend(front, t, a, p, {CapitalCall});
      assert Range(n + 1) == Range(n) + [n];
      SumByAppend(Range(n), n, i => CarriedTerm(ts, a, p, i));
      if t.reverses.Some? {
        ReversalCarried(w, front, t, a, p);
      } else {
        PlainCarried(w, front, t, a, p);
      }
    }
  }

  /** A transfer that reverses nothing changes no earlier term, and has a term of its own. */
  lemma PlainCarried(w: World, front: seq<Transfer>, t: Transfer, a: set<AccountId>, p: set<PeriodId>)
    requires TransfersOk(w, front + [t]) && t.reverses.None?
    ensures SumBy(Range(|front|), i => CarriedTerm(front + [t], a, p, i))
      == SumBy(Range(|front|), i => CarriedTerm(front, a, p, i))
    ensures CarriedTerm(front + [t], a, p, |front|) == BaseTerm(front + [t], t, a, p, {CapitalCall})
  {
    hide TransfersOk, BaseIn, ReversalIndex;
    forall i: int | 0 <= i < |front| ensures CarriedTerm(front, a, p, i) == CarriedTerm(front + [t], a, p, i) {
      ReversalIndexAfter(front, t, i);
    }
    SumByCongruent(Range(|front|), i => CarriedTerm(front, a, p, i), i => CarriedTerm(front + [t], a, p, i));
    NothingReversesLast(w, front, t);
  }

  /** A reversal takes its target's term back in the periods it is posted in. */
  lemma ReversalCarried(w: World, front: seq<Transfer>, t: Transfer, a: set<AccountId>, p: set<PeriodId>)
    requires TransfersOk(w, front + [t]) && UniqueReversals(front + [t]) && t.reverses.Some?
    ensures SumBy(Range(|front|), i => CarriedTerm(front + [t], a, p, i))
      == SumBy(Range(|front|), i => CarriedTerm(front, a, p, i)) + BaseTerm(front + [t], t, a, p, {CapitalCall})
    ensures CarriedTerm(front + [t], a, p, |front|) == 0
  {
    hide TransfersOk, BaseIn, ReversalIndex, UniqueReversals;
    var j := ReversalTarget(w, front, t, a);
    forall i: int | 0 <= i < |front| && i != j
      ensures CarriedTerm(front, a, p, i) == CarriedTerm(front + [t], a, p, i)
    {
      ReversalIndexAfter(front, t, i);
    }
    ReversalIndexAfter(front, t, j);
    SumByChangeOne(Range(|front|), j, i => CarriedTerm(front, a, p, i), i => CarriedTerm(front + [t], a, p, i));
  }

  lemma ReversalTarget(w: World, front: seq<Transfer>, t: Transfer, a: set<AccountId>) returns (j: nat)
    requires TransfersOk(w, front + [t]) && UniqueReversals(front + [t]) && t.reverses.Some?
    ensures t.reverses == Some(j) && j < |front| && ReversalIndex(front, j) == |front| && t.kind == Reversal
    ensures BaseIn(t.entries, a) == -BaseIn(front[j].entries, a)
    ensures (front + [t])[j] == front[j] && (front + [t])[|front|] == t
  {
    var all := front + [t];
    j := t.reverses.value;
    assert TransferOk(w, all[..|front|], all[|front|]);
    assert all[..|front|] == front;
    assert TransferOk(w, all[..j], all[j]);
    FlipNegates(front[j].entries, a);
    forall i | 0 <= i < |front| ensures front[i].reverses != t.reverses {
      assert all[i] == front[i];
    }
  }

  lemma NothingReversesLast(w: World, front: seq<Transfer>, t: Transfer)
    requires TransfersOk(w, front + [t])
    ensures ReversalIndex(front + [t], |front|) == |front| + 1
  {
    TransfersPointBack(w, front + [t]);
  }

  /**
   * Net contributions are what the calls still standing contributed: a reversal cancels exactly the call it
   * reverses, whatever period it is posted in.
   */
  lemma ContributionsAreStandingCalls(w: World, ts: seq<Transfer>, a: set<AccountId>)
    requires TransfersOk(w, ts) && UniqueReversals(ts)
    ensures BaseSum(ts, a, AllPeriods(w), {CapitalCall}) == SumBy(Range(|ts|), i => StandingTerm(ts, a, i))
  {
    hide TransfersOk, UniqueReversals, BaseIn, ReversalIndex;
    CallsCarried(w, ts, a, AllPeriods(w));
    forall i: int | 0 <= i < |ts| ensures CarriedTerm(ts, a, AllPeriods(w), i) == StandingTerm(ts, a, i) {
      PeriodKnown(w, ts, i);
      if ReversalIndex(ts, i) < |ts| {
        PeriodKnown(w, ts, ReversalIndex(ts, i));
      }
    }
    SumByCongruent(Range(|ts|), i => CarriedTerm(ts, a, AllPeriods(w), i), i => StandingTerm(ts, a, i));
  }

  lemma PeriodKnown(w: World, ts: seq<Transfer>, i: nat)
    requires TransfersOk(w, ts) && i < |ts|
    ensures ts[i].period in AllPeriods(w)
  {
    assert TransferOk(w, ts[..i], ts[i]);
  }
}
