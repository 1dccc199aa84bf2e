/**
 * What each business operation does to a fund's net asset value: a call brings its total in, a distribution pays
 * its total out, a fee costs its amount, a valuation moves it by the change, and an investment leaves it alone
 * (operations/services.py, operations/statements.py).
 */
module NavEffects {
  import opened Results
  import opened Sums
  import opened Types
  import opened Chart
  import opened Queries
  import opened Posting
  import opened Operations
  import opened Invariants
  import opened Capital
  import opened Commitments
  import opened Statements
  import Pricing

  function Assets(w: World, fund: FundId): set<AccountId> { FundAccounts(w, fund, {Cash, Investments}) }

  lemma NavMoves(w: World, b: Books, req: Request, fund: FundId)
    requires JustCreated(w, b, req) && PointsBack(b.transfers)
    ensures Posted(w, b, DraftOf(w, req, SourceOf(b.transfers, req))).Ok?
    ensures NavNow(w, Execute(w, b, req).0.transfers, fund)
      == NavNow(w, b.transfers, fund) + BaseIn(NewTransfer(w, b, req).entries, Assets(w, fund))
  {
    hide Execute, DraftOf, Posted, BaseSum, BaseIn, FundAccounts, PointsBack;
    CreatedFrom(w, b, req);
    var d := DraftOf(w, req, SourceOf(b.transfers, req));
    PostedParts(w, b, d);
    var t := NewTransfer(w, b, req);
    BaseSumAppend(b.transfers, t, Assets(w, fund), AllPeriods(w), AllKinds);
    EveryTransferCounts(w, b.transfers + [t], t, Assets(w, fund));
  }

  lemma EveryTransferCounts(w: World, ts: seq<Transfer>, t: Transfer, a: set<AccountId>)
    requires t.period < |w.periods|
    ensures BaseTerm(ts, t, a, AllPeriods(w), AllKinds) == BaseIn(t.entries, a)
  {
    var k := EffectiveKind(ts, t);
    assert k.CapitalCall? || k.Distribution? || k.Fee? || k.Investment? || k.Reversal? || k.Adjustment?;
  }

  // ---- Calls and distributions ---------------------------------------------------------------------------

  /** Entries that balance and lie on two sets of accounts book opposite amounts on them. */
  lemma TwoSides(entries: seq<Entry>, a: set<AccountId>, b: set<AccountId>)
    requires a !! b && Imbalance(entries) == 0
    requires forall e :: e in entries ==> e.account in a + b
    ensures BaseIn(entries, a) == -BaseIn(entries, b)
  {
    BaseInSplits(entries, a, b);
    AllTouchedIsImbalance(entries, a + b);
  }

  lemma PlanBooksAssets(w: World, fund: FundId, total: int, on: Date, call: bool, d: Draft)
    requires WorldOk(w) && PlanFor(w, fund, total, on, call).Ok? && total > 0
    requires d.legs == PlanFor(w, fund, total, on, call).value.legs
    requires d.period == PlanFor(w, fund, total, on, call).value.period && Prepare(w, true, d).Ok?
    ensures BaseIn(Prepare(w, true, d).value, Assets(w, fund)) == if call then total else -total
  {
    hide WorldOk, Prepare, BaseIn, Imbalance, CommitmentsOf, CashAccount, PlanFor, FundAccounts, ShareIn;
    var entries := Prepare(w, true, d).value;
    var capital := FundAccounts(w, fund, {LpCapital});
    PlanShares(w, fund, total, on, call);
    CashIsNotCapital(w, fund);
    PlanEntriesIn(w, true, fund, total, on, call, d, capital);
    AllPartnersShares(w, fund, PlanFor(w, fund, total, on, call).value.shares);
    PlanParts(w, fund, total, on, call);
    PlanLegsShape(w, fund, total, on, call);
    PreparedEntries(w, true, d);
    AssetsOrCapital(w, fund, d, entries);
    TwoSides(entries, Assets(w, fund), capital);
  }

  lemma AssetsOrCapital(w: World, fund: FundId, d: Draft, entries: seq<Entry>)
    requires d.period < |w.periods| && w.periods[d.period].fund == fund && |entries| == |d.legs|
    requires forall i :: 0 <= i < |entries| ==> EntryOk(w, fund, entries[i]) && BooksLeg(entries[i], d.legs[i])
    requires forall l :: l in d.legs ==>
      l.account < |w.accounts| && (w.accounts[l.account].kind == Cash || w.accounts[l.account].kind == LpCapital)
    ensures forall e :: e in entries ==> e.account in Assets(w, fund) + FundAccounts(w, fund, {LpCapital})
    ensures Assets(w, fund) !! FundAccounts(w, fund, {LpCapital})
  {
    forall e | e in entries ensures e.account in Assets(w, fund) + FundAccounts(w, fund, {LpCapital}) {
      var k :| 0 <= k < |entries| && entries[k] == e;
      assert BooksLeg(entries[k], d.legs[k]) && EntryOk(w, fund, entries[k]);
      assert d.legs[k] in d.legs;
    }
  }

  /** A capital call raises the fund's net asset value by exactly its total. */
  lemma CallRaisesNav(w: World, b: Books, req: Request)
    requires WorldOk(w) && req.Call? && JustCreated(w, b, req) && PointsBack(b.transfers)
    ensures NavNow(w, Execute(w, b, req).0.transfers, req.fund) == NavNow(w, b.transfers, req.fund) + req.total
  {
    hide WorldOk, Execute, BaseIn, PlanFor, NavNow, Posted, Prepare, PointsBack;
    NavMoves(w, b, req, req.fund);
    CreatedFrom(w, b, req);
    PostedParts(w, b, DraftOf(w, req, None));
    PlanBooksAssets(w, req.fund, req.total, req.notice, true, DraftOf(w, req, None));
  }

  /** A distribution lowers the fund's net asset value by exactly its total. */
  lemma DistributionLowersNav(w: World, b: Books, req: Request)
    requires WorldOk(w) && req.Distribute? && JustCreated(w, b, req) && PointsBack(b.transfers)
    ensures NavNow(w, Execute(w, b, req).0.transfers, req.fund) == NavNow(w, b.transfers, req.fund) - req.total
  {
    hide WorldOk, Execute, BaseIn, PlanFor, NavNow, Posted, Prepare, PointsBack;
    NavMoves(w, b, req, req.fund);
    CreatedFrom(w, b, req);
    PostedParts(w, b, DraftOf(w, req, None));
    PlanBooksAssets(w, req.fund, req.total, req.payment, false, DraftOf(w, req, None));
  }

  // ---- Fees, valuations and investments ------------------------------------------------------------------

  lemma StandardAsset(w: World, fund: FundId, kind: AccountType, currency: Currency)
    requires WorldOk(w) && kind != LpCapital && GetAccount(w, fund, kind, currency) < |w.accounts|
    ensures GetAccount(w, fund, kind, currency) in Assets(w, fund) <==> kind == Cash || kind == Investments
    ensures kind == Cash || kind == Investments ==>
      w.accounts[GetAccount(w, fund, kind, currency)].currency == currency
  {
    assert StandardCodes(w);
  }

  /** A leg in the base currency is booked at its amount, whatever the other legs are. */
  lemma BaseLegAtFaceValue(w: World, baseCurrency: Currency, on: Date, legs: seq<Leg>, i: nat)
    requires Pricing.KnownAccounts(w, legs) && Pricing.Price(w, baseCurrency, on, legs).Ok? && i < |legs|
    requires w.accounts[legs[i].account].currency == baseCurrency && legs[i].base.None?
    requires forall k :: 0 <= k < |legs| ==> !legs[k].direction.Unknown?
    ensures |Pricing.Price(w, baseCurrency, on, legs).value| == |legs|
    ensures Pricing.Price(w, baseCurrency, on, legs).value[i]
      == Entry(legs[i].account, legs[i].direction, legs[i].amount, baseCurrency, None, legs[i].amount)
  {
    hide Pricing.FxRateFor, Pricing.Absorbed, Pricing.Residual;
    var priced := Pricing.PriceEach(w, baseCurrency, on, legs).value;
    assert Pricing.KnownDirections(priced);
    Pricing.AbsorbBalancesIff(priced);
  }

  lemma TwoEntriesIn(entries: seq<Entry>, a: set<AccountId>)
    requires |entries| == 2
    ensures BaseIn(entries, a) == (if entries[0].account in a then SignedBase(entries[0]) else 0)
      + if entries[1].account in a then SignedBase(entries[1]) else 0
  {
    var f := (e: Entry) => if e.account in a then SignedBase(e) else 0;
    SumByAppend([], entries[0], f);
    SumByAppend([entries[0]], entries[1], f);
    assert entries == [entries[0]] + [entries[1]];
    assert [entries[0]] == [] + [entries[0]];
  }

  /** What two legs book on the fund's assets when exactly one of them, in base currency, is on an asset. */
  lemma OneAssetLeg(w: World, fund: FundId, b: Books, req: Request, i: nat)
    requires req.PostLegs? && |req.legs| == 2 && i < 2 && Posted(w, b, DraftOf(w, req, None)).Ok?
    requires req.legs[i].account in Assets(w, fund) && req.legs[1 - i].account !in Assets(w, fund)
    requires req.period < |w.periods| && w.periods[req.period].fund == fund && req.legs[i].base.None?
    requires w.accounts[req.legs[i].account].currency == BaseCurrency(w, fund)
    ensures BaseIn(Posted(w, b, DraftOf(w, req, None)).value.entries, Assets(w, fund))
      == Sign(req.legs[i].direction) * req.legs[i].amount
  {
    hide Prepare, Posted, FundAccounts, Pricing.Price, BaseIn, HashOf;
    var d := DraftOf(w, req, None);
    PostedParts(w, b, d);
    PreparedDraft(w, true, d);
    PreparedEntries(w, true, d);
    BaseLegAtFaceValue(w, BaseCurrency(w, fund), d.fxDate, d.legs, i);
    var entries := Prepare(w, true, d).value;
    assert BooksLeg(entries[1 - i], d.legs[1 - i]);
    TwoEntriesIn(entries, Assets(w, fund));
  }

  lemma PostedLegs(w: World, b: Books, req: Request)
    requires req.PostLegs? && JustCreated(w, b, req)
    ensures SourceOf(b.transfers, req) == None && Posted(w, b, DraftOf(w, req, None)).Ok?
    ensures req.period < |w.periods| && Pricing.KnownAccounts(w, req.legs)
  {
    hide Execute, Posted, Prepare, HashOf;
    CreatedFrom(w, b, req);
    PostedParts(w, b, DraftOf(w, req, None));
    PreparedDraft(w, true, DraftOf(w, req, None));
  }

  /** A fee lowers the fund's net asset value by its amount. */
  lemma FeeLowersNav(w: World, b: Books, fund: FundId, key: string, amount: int, on: Date)
    requires WorldOk(w) && PointsBack(b.transfers) && FeeRequest(w, fund, key, amount, on).Ok?
    requires JustCreated(w, b, FeeRequest(w, fund, key, amount, on).value)
    ensures var after := Execute(w, b, FeeRequest(w, fund, key, amount, on).value).0;
      NavNow(w, after.transfers, fund) == NavNow(w, b.transfers, fund) - amount
  {
    hide WorldOk, Execute, Posted, NavNow, BaseIn, Pricing.KnownAccounts, GetAccount;
    var req := FeeRequest(w, fund, key, amount, on).value;
    PostedLegs(w, b, req);
    PeriodForFund(w, fund, on);
    KnownLeg(w, req.legs, 0);
    KnownLeg(w, req.legs, 1);
    StandardAsset(w, fund, FeeExpense, BaseCurrency(w, fund));
    StandardAsset(w, fund, Cash, BaseCurrency(w, fund));
    OneAssetLeg(w, fund, b, req, 1);
    NavMoves(w, b, req, fund);
  }

  lemma KnownLeg(w: World, legs: seq<Leg>, i: nat)
    requires Pricing.KnownAccounts(w, legs) && i < |legs|
    ensures legs[i].account < |w.accounts|
  {
  }

  /** A valuation moves the fund's net asset value by exactly the change, up or down. */
  lemma ValuationMovesNav(w: World, b: Books, fund: FundId, key: string, change: int, on: Date)
    requires WorldOk(w) && PointsBack(b.transfers) && ValuationRequest(w, fund, key, change, on).Ok?
    requires JustCreated(w, b, ValuationRequest(w, fund, key, change, on).value)
    ensures var after := Execute(w, b, ValuationRequest(w, fund, key, change, on).value).0;
      NavNow(w, after.transfers, fund) == NavNow(w, b.transfers, fund) + change
  {
    hide WorldOk, Execute, Posted, NavNow, BaseIn, Pricing.KnownAccounts, GetAccount;
    var req := ValuationRequest(w, fund, key, change, on).value;
    PostedLegs(w, b, req);
    PeriodForFund(w, fund, on);
    KnownLeg(w, req.legs, 0);
    KnownLeg(w, req.legs, 1);
    StandardAsset(w, fund, GainLoss, BaseCurrency(w, fund));
    StandardAsset(w, fund, Investments, BaseCurrency(w, fund));
    OneAssetLeg(w, fund, b, req, if change > 0 then 0 else 1);
    NavMoves(w, b, req, fund);
  }

  lemma AssetLegsOnly(w: World, b: Books, req: Request, fund: FundId)
    requires req.PostLegs? && Posted(w, b, DraftOf(w, req, None)).Ok?
    requires forall i :: 0 <= i < |req.legs| ==> req.legs[i].account in Assets(w, fund)
    ensures BaseIn(Posted(w, b, DraftOf(w, req, None)).value.entries, Assets(w, fund)) == 0
  {
    hide Prepare, Posted, FundAccounts, BaseIn, HashOf, Imbalance;
    var d := DraftOf(w, req, None);
    PostedParts(w, b, d);
    PreparedEntries(w, true, d);
    var entries := Prepare(w, true, d).value;
    forall e | e in entries ensures e.account in Assets(w, fund) {
      var k :| 0 <= k < |entries| && entries[k] == e;
      assert BooksLeg(entries[k], d.legs[k]);
    }
    AllTouchedIsImbalance(entries, Assets(w, fund));
  }

  /** Buying a holding, at any rate, leaves the fund's net asset value as it was. */
  lemma InvestmentKeepsNav(w: World, b: Books, fund: FundId, key: string, amount: int, currency: Currency, on: Date)
    requires WorldOk(w) && PointsBack(b.transfers) && InvestmentRequest(w, fund, key, amount, currency, on).Ok?
    requires JustCreated(w, b, InvestmentRequest(w, fund, key, amount, currency, on).value)
    ensures var after := Execute(w, b, InvestmentRequest(w, fund, key, amount, currency, on).value).0;
      NavNow(w, after.transfers, fund) == NavNow(w, b.transfers, fund)
  {
    hide WorldOk, Execute, Posted, NavNow, BaseIn, Pricing.KnownAccounts, GetAccount, Assets, DraftOf;
    hide Pricing.FxRateFor, Pricing.RoundHalfEven, PeriodFor;
    var req := InvestmentRequest(w, fund, key, amount, currency, on).value;
    PostedLegs(w, b, req);
    KnownLeg(w, req.legs, 0);
    KnownLeg(w, req.legs, 1);
    StandardAsset(w, fund, Investments, currency);
    StandardAsset(w, fund, Cash, BaseCurrency(w, fund));
    AssetLegsOnly(w, b, req, fund);
    NavMoves(w, b, req, fund);
  }
}
