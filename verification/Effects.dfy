/**
 * What an accepted request writes down, and how it moves each account in its own currency
 * (operations/services.py, ledger/services.py).
 */
module Effects {
  import opened Results
  import opened Sums
  import opened Types
  import opened Chart
  import opened Queries
  import opened Posting
  import opened Operations
  import opened Invariants
  import opened Commitments
  import opened Statements
  import opened NavEffects
  import opened Acceptance
  import Pricing

  // ---- Records -------------------------------------------------------------------------------------------

  /** The type a request's transfer is recorded with. */
  function KindOf(req: Request): TransferType
    requires !req.Close?
  {
    match req
    case PostLegs(_, kind, _, _, _) => kind
    case Call(_, _, _, _, _, _) => CapitalCall
    case Distribute(_, _, _, _, _, _) => Distribution
    case Reverse(_, _, _, _) => Reversal
  }

  /** The period it is recorded in: the one asked for, or the first that covers the notice or payment date. */
  function PeriodOf(w: World, req: Request): PeriodId
    requires !req.Close?
  {
    match req
    case PostLegs(_, _, period, _, _) => period
    case Call(_, fund, _, notice, _, _) => PeriodFor(w, fund, notice)
    case Distribute(_, fund, _, payment, _, _) => PeriodFor(w, fund, payment)
    case Reverse(_, _, period, _) => period
  }

  /** A created transfer carries its request's key, payload, type, target and period. */
  lemma CreatedAsAsked(w: World, b: Books, req: Request)
    requires WorldOk(w) && JustCreated(w, b, req)
    ensures Posted(w, b, DraftOf(w, req, SourceOf(b.transfers, req))).Ok?
    ensures var t := NewTransfer(w, b, req);
      && Execute(w, b, req).0.transfers == b.transfers + [t] && Execute(w, b, req).0.closed == b.closed
      && t.key == req.key && t.hash == HashOf(req) && t.kind == KindOf(req)
      && t.reverses == (if req.Reverse? then Some(req.target) else None)
      && t.period == PeriodOf(w, req) && t.period < |w.periods| && t.period !in b.closed
  {
    hide WorldOk, Execute, Posted, Prepare, PlanFor, HashOf, PeriodFor, Created, CanSplit;
    CreatedFrom(w, b, req);
    PostedParts(w, b, DraftOf(w, req, SourceOf(b.transfers, req)));
    if req.Call? {
      AcceptedParts(w, b, req);
      PlanMadeIff(w, req.fund, req.total, req.notice, true);
    } else if req.Distribute? {
      AcceptedParts(w, b, req);
      PlanMadeIff(w, req.fund, req.total, req.payment, false);
    }
  }

  /** A posting keeps every leg's account, direction and amount. */
  lemma PostedLegsAreKept(w: World, b: Books, req: Request)
    requires req.PostLegs? && JustCreated(w, b, req)
    ensures Posted(w, b, DraftOf(w, req, SourceOf(b.transfers, req))).Ok?
    ensures var entries := NewTransfer(w, b, req).entries;
      |entries| == |req.legs| && forall i :: 0 <= i < |entries| ==> BooksLeg(entries[i], req.legs[i])
    ensures forall i :: 0 <= i < |req.legs| ==> req.legs[i].account < |w.accounts| && !req.legs[i].direction.Unknown?
  {
    hide Execute, Posted, Prepare, HashOf, JustCreated, Created;
    var d := DraftOf(w, req, SourceOf(b.transfers, req));
    CreatedFrom(w, b, req);
    PostedParts(w, b, d);
    PreparedDraft(w, true, d);
    PreparedEntries(w, true, d);
  }

  /**
   * The rate and base amount of an entry: none, and the amount, in the base currency; else the rate that was given,
   * or a latest one published by the posting's date, and a given base amount, or the nearest at that rate, moved by
   * at most a unit for each leg to absorb rounding.
   */
  ghost predicate Valued(w: World, base: Currency, on: Date, legs: seq<Leg>, i: nat, e: Entry)
    requires i < |legs| && legs[i].account < |w.accounts|
  {
    var leg, currency := legs[i], w.accounts[legs[i].account].currency;
    && e.currency == currency && (leg.base.Some? ==> e.base == leg.base.value)
    && if currency == base then e.fxRate.None? && (leg.base.None? ==> e.base == leg.amount)
       else
         && e.fxRate.Some?
         && (leg.fxRate.Some? ==> e.fxRate == leg.fxRate)
         && (leg.fxRate.None? ==> exists row :: LatestRate(w, row, currency, base, on) && row.rate == e.fxRate.value)
         && (leg.base.None? ==> exists rounded :: Pricing.NearestUnit(rounded, leg.amount, e.fxRate.value)
                                  && -|legs| <= e.base - rounded <= |legs|)
  }

  lemma PricedIsValued(w: World, base: Currency, on: Date, legs: seq<Leg>, i: nat)
    requires Pricing.KnownAccounts(w, legs) && Pricing.Price(w, base, on, legs).Ok? && i < |legs|
    ensures i < |Pricing.Price(w, base, on, legs).value|
    ensures Valued(w, base, on, legs, i, Pricing.Price(w, base, on, legs).value[i])
  {
    hide Pricing.Price, Pricing.PriceLeg, Pricing.NearestUnit;
    var leg, currency := legs[i], w.accounts[legs[i].account].currency;
    Pricing.PricedAsAsked(w, base, on, leg);
    Pricing.PricedLegByLeg(w, base, on, legs, i);
    if currency != base && leg.fxRate.None? {
      var p := Pricing.PriceLeg(w, base, on, leg).value;
      var row :| Pricing.Latest(w.rates, row, currency, base, on) && p.entry.fxRate.value == row.rate;
      LatestIsLatest(w, row, currency, base, on);
    }
  }

  lemma LatestIsLatest(w: World, row: FxRate, from: Currency, to: Currency, on: Date)
    requires Pricing.Latest(w.rates, row, from, to, on)
    ensures LatestRate(w, row, from, to, on)
  {
    forall r | r in w.rates && r.from == from && r.to == to && r.asOf <= on ensures r.asOf <= row.asOf {
      var i :| 0 <= i < |w.rates| && w.rates[i] == r;
      assert Pricing.Eligible(w.rates[i], from, to, on);
    }
  }

  /** Every entry of a posting is valued at its own rate, on the posting's date. */
  lemma PostedAtTheDaysRates(w: World, b: Books, req: Request, i: nat)
    requires req.PostLegs? && JustCreated(w, b, req) && i < |req.legs|
    ensures Posted(w, b, DraftOf(w, req, SourceOf(b.transfers, req))).Ok?
    ensures req.period < |w.periods| && req.legs[i].account < |w.accounts|
    ensures i < |NewTransfer(w, b, req).entries|
    ensures Valued(w, BaseCurrency(w, w.periods[req.period].fund), req.fxDate, req.legs, i,
                   NewTransfer(w, b, req).entries[i])
  {
    hide Execute, Posted, Prepare, HashOf, JustCreated, Created, Valued, Pricing.Price;
    var d := DraftOf(w, req, SourceOf(b.transfers, req));
    CreatedFrom(w, b, req);
    PostedParts(w, b, d);
    PreparedDraft(w, true, d);
    PricedIsValued(w, BaseCurrency(w, w.periods[req.period].fund), req.fxDate, req.legs, i);
  }

  /** An accepted call adds one call row, with the fund's next number and everything as asked. */
  lemma CallIsRecorded(w: World, b: Books, req: Request)
    requires req.Call? && JustCreated(w, b, req) && TagsOk(CallTags(b.calls))
    ensures var after := Execute(w, b, req).0;
      && after.distributions == b.distributions && |after.calls| == |b.calls| + 1
      && after.calls[..|b.calls|] == b.calls
      && var doc := after.calls[|b.calls|];
         && doc.fund == req.fund && doc.total == req.total && doc.notice == req.notice && doc.due == req.due
         && doc.transfer == |b.transfers| && doc.number == TagCount(CallTags(b.calls), req.fund) + 1
  {
    hide Execute, Posted, TagsOk, LastNumber, JustCreated, Created;
    CreatedFrom(w, b, req);
    CreatedParts(w, b, req, None);
    LastNumberIsCount(CallTags(b.calls), req.fund);
  }

  /** An accepted distribution adds one distribution row, likewise. */
  lemma DistributionIsRecorded(w: World, b: Books, req: Request)
    requires req.Distribute? && JustCreated(w, b, req) && TagsOk(DistributionTags(b.distributions))
    ensures var after := Execute(w, b, req).0;
      && after.calls == b.calls && |after.distributions| == |b.distributions| + 1
      && after.distributions[..|b.distributions|] == b.distributions
      && var doc := after.distributions[|b.distributions|];
         && doc.fund == req.fund && doc.total == req.total && doc.payment == req.payment
         && doc.classification == req.classification && doc.transfer == |b.transfers|
         && doc.number == TagCount(DistributionTags(b.distributions), req.fund) + 1
  {
    hide Execute, Posted, TagsOk, LastNumber, JustCreated, Created;
    CreatedFrom(w, b, req);
    CreatedParts(w, b, req, None);
    LastNumberIsCount(DistributionTags(b.distributions), req.fund);
  }

  // ---- Balances ------------------------------------------------------------------------------------------

  /** The signed amounts of the legs on one account. */
  function LegsOn(legs: seq<Leg>, a: AccountId): int {
    SumBy(legs, (l: Leg) => if l.account == a then Sign(l.direction) * l.amount else 0)
  }

  lemma {:induction false} EntriesOnLegs(entries: seq<Entry>, legs: seq<Leg>, a: AccountId)
    requires |entries| == |legs| && forall i :: 0 <= i < |entries| ==> BooksLeg(entries[i], legs[i])
    ensures NativeOn(entries, a) == LegsOn(legs, a)
  {
    if legs != [] {
      var n := |legs| - 1;
      EntriesOnLegs(entries[..n], legs[..n], a);
    }
  }

  /** A posting moves every account by its legs' amounts in the account's own currency: debits up, credits down. */
  lemma PostMovesBalances(w: World, b: Books, req: Request, a: AccountId)
    requires req.PostLegs? && JustCreated(w, b, req)
    ensures NativeBalance(Execute(w, b, req).0.transfers, a) == NativeBalance(b.transfers, a) + LegsOn(req.legs, a)
  {
    hide Execute, Posted, NativeBalance, JustCreated, Created, DraftOf;
    CreatedFrom(w, b, req);
    PostedLegsAreKept(w, b, req);
    EntriesOnLegs(NewTransfer(w, b, req).entries, req.legs, a);
    NativeAppend(b.transfers, NewTransfer(w, b, req), a);
  }

  lemma TwoLegsOn(legs: seq<Leg>, a: AccountId)
    requires |legs| == 2
    ensures LegsOn(legs, a) == (if legs[0].account == a then Sign(legs[0].direction) * legs[0].amount else 0)
      + if legs[1].account == a then Sign(legs[1].direction) * legs[1].amount else 0
  {
    var f := (l: Leg) => if l.account == a then Sign(l.direction) * l.amount else 0;
    SumByAppend([], legs[0], f);
    SumByAppend([legs[0]], legs[1], f);
    assert legs == [legs[0]] + [legs[1]];
    assert [legs[0]] == [] + [legs[0]];
  }

  /** An amount moves from one account to another, and no other account moves. */
  ghost predicate Moves(b: Books, after: Books, from: AccountId, paid: int, to: AccountId, received: int) {
    && from != to
    && NativeBalance(after.transfers, from) == NativeBalance(b.transfers, from) - paid
    && NativeBalance(after.transfers, to) == NativeBalance(b.transfers, to) + received
    && forall a: AccountId :: a != from && a != to ==>
         NativeBalance(after.transfers, a) == NativeBalance(b.transfers, a)
  }

  lemma TwoLegsMove(w: World, b: Books, req: Request)
    requires req.PostLegs? && JustCreated(w, b, req) && |req.legs| == 2
    requires req.legs[0].direction == Debit && req.legs[1].direction == Credit
    requires req.legs[0].account != req.legs[1].account
    ensures Moves(b, Execute(w, b, req).0, req.legs[1].account, req.legs[1].amount, req.legs[0].account,
                  req.legs[0].amount)
  {
    hide Execute, NativeBalance, JustCreated, LegsOn;
    forall a: AccountId
      ensures NativeBalance(Execute(w, b, req).0.transfers, a) == NativeBalance(b.transfers, a)
        + (if req.legs[0].account == a then req.legs[0].amount else 0)
        - (if req.legs[1].account == a then req.legs[1].amount else 0)
    {
      PostMovesBalances(w, b, req, a);
      TwoLegsOn(req.legs, a);
    }
  }

  lemma StandardAccountsDiffer(w: World, fund: FundId, kind: AccountType, currency: Currency, other: AccountType,
                               otherCurrency: Currency)
    requires WorldOk(w) && kind != other && kind != LpCapital && other != LpCapital
    requires GetAccount(w, fund, kind, currency) < |w.accounts|
    requires GetAccount(w, fund, other, otherCurrency) < |w.accounts|
    ensures GetAccount(w, fund, kind, currency) != GetAccount(w, fund, other, otherCurrency)
  {
    StandardAccount(w, fund, kind, currency);
    StandardAccount(w, fund, other, otherCurrency);
  }

  /** A fee: its amount moves from cash to the fee expense account, recorded as a fee in the period of its date. */
  lemma FeeMovesMoney(w: World, b: Books, fund: FundId, key: string, amount: int, on: Date)
    requires WorldOk(w) && FeeRequest(w, fund, key, amount, on).Ok?
    requires JustCreated(w, b, FeeRequest(w, fund, key, amount, on).value)
    ensures var req := FeeRequest(w, fund, key, amount, on).value;
      && req.PostLegs? && req.key == key && req.kind == Fee && req.period == PeriodFor(w, fund, on)
      && Moves(b, Execute(w, b, req).0, CashAccount(w, fund), amount,
               GetAccount(w, fund, FeeExpense, BaseCurrency(w, fund)), amount)
  {
    hide WorldOk, Execute, Posted, JustCreated, GetAccount, PeriodFor, Moves, DraftOf;
    var req := FeeRequest(w, fund, key, amount, on).value;
    PostedLegsAreKept(w, b, req);
    KnownTwo(w, req);
    StandardAccountsDiffer(w, fund, Cash, BaseCurrency(w, fund), FeeExpense, BaseCurrency(w, fund));
    TwoLegsMove(w, b, req);
  }

  lemma KnownTwo(w: World, req: Request)
    requires req.PostLegs? && |req.legs| == 2
    requires forall i :: 0 <= i < |req.legs| ==> req.legs[i].account < |w.accounts|
    ensures req.legs[0].account < |w.accounts| && req.legs[1].account < |w.accounts|
  {
  }

  /** A valuation: the change moves from the gain and loss account to the holding, or back when it is negative. */
  lemma ValuationMovesMoney(w: World, b: Books, fund: FundId, key: string, change: int, on: Date)
    requires WorldOk(w) && ValuationRequest(w, fund, key, change, on).Ok?
    requires JustCreated(w, b, ValuationRequest(w, fund, key, change, on).value)
    ensures var req := ValuationRequest(w, fund, key, change, on).value;
      var holding := GetAccount(w, fund, Investments, BaseCurrency(w, fund));
      var gainLoss := GetAccount(w, fund, GainLoss, BaseCurrency(w, fund));
      && req.PostLegs? && req.key == key && req.kind == Adjustment && req.period == PeriodFor(w, fund, on)
      && Moves(b, Execute(w, b, req).0, gainLoss, change, holding, change)
  {
    hide WorldOk, Execute, Posted, JustCreated, GetAccount, PeriodFor, NativeBalance, DraftOf;
    var req := ValuationRequest(w, fund, key, change, on).value;
    PostedLegsAreKept(w, b, req);
    KnownTwo(w, req);
    StandardAccountsDiffer(w, fund, Investments, BaseCurrency(w, fund), GainLoss, BaseCurrency(w, fund));
    TwoLegsMove(w, b, req);
  }

  /** An investment in the base currency: its amount moves from cash to the holding. */
  lemma BaseInvestmentMovesMoney(w: World, b: Books, fund: FundId, key: string, amount: int, on: Date)
    requires WorldOk(w) && InvestmentRequest(w, fund, key, amount, BaseCurrency(w, fund), on).Ok?
    requires JustCreated(w, b, InvestmentRequest(w, fund, key, amount, BaseCurrency(w, fund), on).value)
    ensures var req := InvestmentRequest(w, fund, key, amount, BaseCurrency(w, fund), on).value;
      && req.PostLegs? && req.key == key && req.kind == Investment && req.period == PeriodFor(w, fund, on)
      && Moves(b, Execute(w, b, req).0, CashAccount(w, fund), amount,
               GetAccount(w, fund, Investments, BaseCurrency(w, fund)), amount)
  {
    hide WorldOk, Execute, Posted, JustCreated, GetAccount, PeriodFor, Moves, Pricing.FxRateFor, DraftOf;
    var req := InvestmentRequest(w, fund, key, amount, BaseCurrency(w, fund), on).value;
    PostedLegsAreKept(w, b, req);
    KnownTwo(w, req);
    StandardAccountsDiffer(w, fund, Cash, BaseCurrency(w, fund), Investments, BaseCurrency(w, fund));
    TwoLegsMove(w, b, req);
  }

  /** The latest row that converts a currency into another, published on or before a date. */
  ghost predicate LatestRate(w: World, row: FxRate, from: Currency, to: Currency, on: Date) {
    && row in w.rates && row.from == from && row.to == to && row.asOf <= on
    && forall r :: r in w.rates && r.from == from && r.to == to && r.asOf <= on ==> r.asOf <= row.asOf
  }

  lemma RateIsLatest(w: World, from: Currency, to: Currency, on: Date)
    requires Pricing.FxRateFor(w.rates, from, to, on).Some?
    ensures LatestRate(w, Pricing.FxRateFor(w.rates, from, to, on).value, from, to, on)
  {
    hide Pricing.FxRateFor;
    var row := Pricing.FxRateFor(w.rates, from, to, on).value;
    forall r | r in w.rates && r.from == from && r.to == to && r.asOf <= on ensures r.asOf <= row.asOf {
      var i :| 0 <= i < |w.rates| && w.rates[i] == r;
      assert Pricing.Eligible(w.rates[i], from, to, on);
    }
  }

  /** An amount at a rate (ten decimals), in whole pennies (of four decimals): the nearest, and the even one of two. */
  predicate NearestPennies(cost: int, amount: int, rate: int) {
    var error := 2 * (cost * 10_000_000_000 - amount * rate);
    && cost % 100 == 0
    && -1_000_000_000_000 <= error <= 1_000_000_000_000
    && (error == 1_000_000_000_000 || error == -1_000_000_000_000 ==> cost / 100 % 2 == 0)
  }

  lemma PenniesAreNearest(amount: int, rate: int)
    ensures NearestPennies(PENNY * Pricing.RoundHalfEven(amount * rate, PENNY * Pricing.RATE_SCALE), amount, rate)
  {
    var d := PENNY * Pricing.RATE_SCALE;
    var m := Pricing.RoundHalfEven(amount * rate, d);
    Pricing.RoundsToNearestEven(amount * rate, d);
    hide Pricing.RoundHalfEven;
    assert (PENNY * m) * Pricing.RATE_SCALE == m * d;
  }

  /**
   * An investment in another currency: the holding gains the amount in its own currency, cash pays whole pennies,
   * the nearest to the amount at the latest rate published on or before the date, and no other account moves.
   */
  lemma ForeignInvestmentMovesMoney(w: World, b: Books, fund: FundId, key: string, amount: int, currency: Currency,
                                    on: Date)
    returns (cost: int, row: FxRate)
    requires WorldOk(w) && currency != BaseCurrency(w, fund)
    requires InvestmentRequest(w, fund, key, amount, currency, on).Ok?
    requires JustCreated(w, b, InvestmentRequest(w, fund, key, amount, currency, on).value)
    ensures LatestRate(w, row, currency, BaseCurrency(w, fund), on) && NearestPennies(cost, amount, row.rate)
    ensures var req := InvestmentRequest(w, fund, key, amount, currency, on).value;
      && req.PostLegs? && req.key == key && req.kind == Investment && req.period == PeriodFor(w, fund, on)
      && Moves(b, Execute(w, b, req).0, CashAccount(w, fund), cost, GetAccount(w, fund, Investments, currency), amount)
  {
    hide WorldOk, Execute, Posted, JustCreated, GetAccount, PeriodFor, Moves, Pricing.FxRateFor, DraftOf, LatestRate;
    hide NearestPennies, Pricing.RoundHalfEven;
    var req := InvestmentRequest(w, fund, key, amount, currency, on).value;
    row := Pricing.FxRateFor(w.rates, currency, BaseCurrency(w, fund), on).value;
    cost := PENNY * Pricing.RoundHalfEven(amount * row.rate, PENNY * Pricing.RATE_SCALE);
    RateIsLatest(w, currency, BaseCurrency(w, fund), on);
    PenniesAreNearest(amount, row.rate);
    PostedLegsAreKept(w, b, req);
    KnownTwo(w, req);
    StandardAccountsDiffer(w, fund, Cash, BaseCurrency(w, fund), Investments, currency);
    TwoLegsMove(w, b, req);
  }
}
