/** The posting engine as a function of the committed rows (ledger/services.py). */
module Posting {
  import opened Results
  import opened Sums
  import opened Types
  import opened Chart
  import opened Queries
  import Pricing

  /** A call of `post_transfer`. */
  datatype Draft = Draft(
    key: string, hash: Fingerprint, kind: TransferType, reverses: Option<TransferId>, period: PeriodId,
    legs: seq<Leg>, fxDate: Date)

  /** `validate_legs`. */
  predicate ValidLegs(legs: seq<Leg>) {
    && |legs| >= 2
    && (forall i :: 0 <= i < |legs| ==> !legs[i].direction.Unknown? && legs[i].amount > 0)
    && (exists i :: 0 <= i < |legs| && legs[i].direction == Debit)
    && (exists i :: 0 <= i < |legs| && legs[i].direction == Credit)
  }

  /** The existing accounts a draft touches, in ascending id order: the rows `_lock_accounts` locks. */
  function LockOrder(w: World, legs: seq<Leg>): (r: seq<AccountId>)
    ensures forall i, j :: 0 <= i < j < |r| ==> r[i] < r[j]
    ensures forall a: nat :: a in r <==> a < |w.accounts| && Touches(legs, a)
  {
    LockOrderBelow(|w.accounts|, legs)
  }

  predicate Touches(legs: seq<Leg>, a: AccountId) { exists i :: 0 <= i < |legs| && legs[i].account == a }

  function LockOrderBelow(n: nat, legs: seq<Leg>): (r: seq<AccountId>)
    ensures forall i, j :: 0 <= i < j < |r| ==> r[i] < r[j]
    ensures forall a: nat :: a in r <==> a < n && Touches(legs, a)
  {
    if n == 0 then []
    else
      var front := LockOrderBelow(n - 1, legs);
      assert forall i :: 0 <= i < |front| ==> front[i] in front;
      front + (if Touches(legs, n - 1) then [n - 1] else [])
  }

  predicate SameFund(w: World, period: PeriodId, legs: seq<Leg>)
    requires period < |w.periods| && Pricing.KnownAccounts(w, legs)
  {
    forall i :: 0 <= i < |legs| ==> w.accounts[legs[i].account].fund == w.periods[period].fund
  }

  /** Everything `post_transfer` decides before it reads a balance; `open` is the period status it was handed. */
  function Prepare(w: World, open: bool, d: Draft): Result<seq<Entry>, Error> {
    if d.period >= |w.periods| then Err(DoesNotExist)
    else if !ValidLegs(d.legs) then Err(InvalidTransfer)
    else if !Pricing.KnownAccounts(w, d.legs) then Err(UnknownAccount)
    else if !open then Err(ClosedPeriod)
    else if !SameFund(w, d.period, d.legs) then Err(InvalidTransfer)
    else
      match Pricing.Price(w, BaseCurrency(w, w.periods[d.period].fund), d.fxDate, d.legs)
      case Err(e) => Err(e)
      case Ok(entries) => if Imbalance(entries) != 0 then Err(UnbalancedTransfer) else Ok(entries)
  }

  /** `_check_sufficient_funds` on one account: the legs on it are netted first. */
  predicate Affordable(w: World, ts: seq<Transfer>, entries: seq<Entry>, a: AccountId) {
    a < |w.accounts| && w.accounts[a].kind == Cash && NativeOn(entries, a) < 0 ==>
      NativeBalance(ts, a) + NativeOn(entries, a) >= 0
  }

  predicate Sufficient(w: World, ts: seq<Transfer>, d: Draft, entries: seq<Entry>) {
    forall i :: 0 <= i < |LockOrder(w, d.legs)| ==> Affordable(w, ts, entries, LockOrder(w, d.legs)[i])
  }

  /** The row checks on the transfer that need no other row. */
  function TransferRowError(d: Draft): Option<Error> {
    if d.key == "" then Some(IntegrityError(KeyPresent))
    else if (d.kind == Reversal) != d.reverses.Some? then Some(IntegrityError(ReversalShape))
    else None
  }

  predicate PositiveRows(entries: seq<Entry>) {
    forall i :: 0 <= i < |entries| ==>
      entries[i].amount > 0 && entries[i].base > 0 && (entries[i].fxRate.Some? ==> entries[i].fxRate.value > 0)
  }

  predicate ReverseFree(ts: seq<Transfer>, reverses: Option<TransferId>) {
    reverses.Some? ==> ReversalIndex(ts, reverses.value) == |ts|
  }

  function Made(d: Draft, entries: seq<Entry>): Transfer {
    Transfer(d.key, d.hash, d.kind, d.reverses, d.period, entries)
  }

  /** `post_transfer`: the transfer it commits, or why it does not. */
  function Posted(w: World, b: Books, d: Draft): Result<Transfer, Error> {
    match Prepare(w, d.period !in b.closed, d)
    case Err(e) => Err(e)
    case Ok(entries) =>
      if !Sufficient(w, b.transfers, d, entries) then Err(InsufficientFunds)
      else if TransferRowError(d).Some? then Err(TransferRowError(d).value)
      else if KeyIndex(b.transfers, d.key) < |b.transfers| then Err(IntegrityError(IdempotencyKeyUnique))
      else if !ReverseFree(b.transfers, d.reverses) then Err(IntegrityError(ReversesUnique))
      else if !PositiveRows(entries) then Err(IntegrityError(EntryPositive))
      else Ok(Made(d, entries))
  }

  function AddTransfer(b: Books, t: Transfer): Books { b.(transfers := b.transfers + [t]) }

  // ---- What a prepared draft looks like ------------------------------------------------------------------

  /** An entry as the database accepts it for a fund. */
  predicate EntryOk(w: World, fund: FundId, e: Entry) {
    && e.account < |w.accounts|
    && w.accounts[e.account].fund == fund
    && e.currency == w.accounts[e.account].currency
    && !e.direction.Unknown?
    && (e.fxRate.None? <==> e.currency == BaseCurrency(w, fund))
  }

  lemma PreparedDraft(w: World, open: bool, d: Draft)
    requires Prepare(w, open, d).Ok?
    ensures d.period < |w.periods| && open && ValidLegs(d.legs)
    ensures Pricing.KnownAccounts(w, d.legs) && SameFund(w, d.period, d.legs)
    ensures var base := BaseCurrency(w, w.periods[d.period].fund);
      Pricing.Price(w, base, d.fxDate, d.legs) == Ok(Prepare(w, open, d).value)
    ensures Imbalance(Prepare(w, open, d).value) == 0
  {
  }

  /** An entry keeps its leg's account, direction and amount. */
  predicate BooksLeg(e: Entry, leg: Leg) {
    e.account == leg.account && e.direction == leg.direction && e.amount == leg.amount
  }

  lemma PricedLegOk(w: World, fund: FundId, on: Date, leg: Leg)
    requires leg.account < |w.accounts| && !leg.direction.Unknown? && w.accounts[leg.account].fund == fund
    requires Pricing.PriceLeg(w, BaseCurrency(w, fund), on, leg).Ok?
    ensures var e := Pricing.PriceLeg(w, BaseCurrency(w, fund), on, leg).value.entry;
      EntryOk(w, fund, e) && BooksLeg(e, leg)
  {
    hide Pricing.FxRateFor, Pricing.Convert;
  }

  lemma PricedEntries(w: World, fund: FundId, on: Date, legs: seq<Leg>)
    requires Pricing.KnownAccounts(w, legs)
    requires forall i :: 0 <= i < |legs| ==> !legs[i].direction.Unknown? && w.accounts[legs[i].account].fund == fund
    requires Pricing.Price(w, BaseCurrency(w, fund), on, legs).Ok?
    ensures var entries := Pricing.Price(w, BaseCurrency(w, fund), on, legs).value;
      && |entries| == |legs|
      && forall i :: 0 <= i < |entries| ==> EntryOk(w, fund, entries[i]) && BooksLeg(entries[i], legs[i])
  {
    hide Pricing.PriceLeg, Pricing.PriceEach, Pricing.Absorbed;
    var priced := Pricing.PriceEach(w, BaseCurrency(w, fund), on, legs).value;
    forall i | 0 <= i < |priced| ensures EntryOk(w, fund, priced[i].entry) && BooksLeg(priced[i].entry, legs[i]) {
      PricedLegOk(w, fund, on, legs[i]);
    }
    assert Pricing.KnownDirections(priced);
    Pricing.AbsorbBalancesIff(priced);
  }

  lemma PreparedEntries(w: World, open: bool, d: Draft)
    requires Prepare(w, open, d).Ok?
    ensures d.period < |w.periods| && open && ValidLegs(d.legs)
    ensures var entries := Prepare(w, open, d).value;
      && |entries| == |d.legs|
      && Imbalance(entries) == 0
      && (forall i :: 0 <= i < |entries| ==>
            EntryOk(w, w.periods[d.period].fund, entries[i]) && BooksLeg(entries[i], d.legs[i]))
  {
    hide Prepare, Pricing.Price;
    PreparedDraft(w, open, d);
    PricedEntries(w, w.periods[d.period].fund, d.fxDate, d.legs);
  }

  /**
   * The room a priced leg needs: the largest adjustable leg must outlast the residual on its own side, and any
   * other leg must convert to something.
   */
  predicate RoomToAbsorb(priced: seq<PricedLeg>) {
    forall i :: 0 <= i < |priced| ==>
      priced[i].entry.base >
        if i == Pricing.LargestAdjustable(priced) then Sign(priced[i].entry.direction) * Pricing.Residual(priced) else 0
  }

  /**
   * A transfer without base overrides whose exact values balance always passes the balance check, and passes the
   * positive-amount guard exactly when its legs leave room to absorb the rounding.
   */
  lemma ExactTransferPassesIff(w: World, d: Draft, priced: seq<PricedLeg>)
    requires d.period < |w.periods| && ValidLegs(d.legs) && Pricing.KnownAccounts(w, d.legs)
    requires SameFund(w, d.period, d.legs) && Pricing.NoBaseOverride(d.legs)
    requires Pricing.PriceEach(w, BaseCurrency(w, w.periods[d.period].fund), d.fxDate, d.legs) == Ok(priced)
    requires Pricing.ExactImbalance(priced) == 0
    requires forall i :: 0 <= i < |priced| && priced[i].entry.fxRate.Some? ==> priced[i].entry.fxRate.value > 0
    ensures Prepare(w, true, d).Ok?
    ensures PositiveRows(Prepare(w, true, d).value) <==> RoomToAbsorb(priced)
  {
    hide Pricing.PriceEach, Pricing.LargestAdjustable, Pricing.Residual, Pricing.ExactImbalance, Imbalance;
    var base := BaseCurrency(w, w.periods[d.period].fund);
    Pricing.RoundingNeverUnbalances(w, base, d.fxDate, d.legs);
    PricedAmounts(w, base, d.fxDate, d.legs, priced);
    AbsorbedBases(priced);
    hide Pricing.Absorbed;
    var entries := Prepare(w, true, d).value;
    assert entries == Pricing.Entries(Pricing.Absorbed(priced));
    assert forall i :: 0 <= i < |priced| ==> entries[i] == Pricing.Absorbed(priced)[i].entry;
  }

  /** The transfer that absorption empties a leg of, posted into an open period. */
  function TightDraft(key: string, hash: Fingerprint): Draft {
    Draft(key, hash, Adjustment, None, 0, Pricing.TightLegs, 0)
  }

  lemma TightPrepares(key: string, hash: Fingerprint)
    ensures var r := Prepare(Pricing.TightWorld, true, TightDraft(key, hash));
      r.Ok? && !PositiveRows(r.value)
  {
    var w, d := Pricing.TightWorld, TightDraft(key, hash);
    Pricing.AbsorptionCanEmptyALeg();
    hide Pricing.Price, Pricing.PriceEach, Imbalance;
    assert d.legs[0].direction == Credit && d.legs[1].direction == Debit;
    assert Pricing.KnownAccounts(w, d.legs) && SameFund(w, 0, d.legs) && BaseCurrency(w, 0) == "GBP";
    assert Prepare(w, true, d) == Pricing.Price(w, "GBP", 0, d.legs);
  }

  /** It balances exactly, passes every other check, and is refused by the constraint on positive amounts. */
  lemma TightTransferRefused(key: string, hash: Fingerprint)
    requires key != ""
    ensures Posted(Pricing.TightWorld, EmptyBooks, TightDraft(key, hash)) == Err(IntegrityError(EntryPositive))
  {
    hide Pricing.Price, Prepare, NativeOn, NativeBalance, LockOrder, KeyIndex;
    var w, d := Pricing.TightWorld, TightDraft(key, hash);
    TightPrepares(key, hash);
    var entries := Prepare(w, true, d).value;
    forall i | 0 <= i < |LockOrder(w, d.legs)| ensures Affordable(w, [], entries, LockOrder(w, d.legs)[i]) {
      assert LockOrder(w, d.legs)[i] in LockOrder(w, d.legs);
    }
  }

  lemma PricedAmounts(w: World, base: Currency, on: Date, legs: seq<Leg>, priced: seq<PricedLeg>)
    requires ValidLegs(legs) && Pricing.KnownAccounts(w, legs) && Pricing.PriceEach(w, base, on, legs) == Ok(priced)
    ensures |priced| == |legs| && Pricing.KnownDirections(priced)
    ensures forall i :: 0 <= i < |priced| ==> priced[i].entry.amount == legs[i].amount
  {
    hide Pricing.FxRateFor, Pricing.Convert;
    forall i | 0 <= i < |legs|
      ensures priced[i].entry.amount == legs[i].amount && priced[i].entry.direction == legs[i].direction
    {
      assert Pricing.PriceLeg(w, base, on, legs[i]) == Ok(priced[i]);
    }
  }

  lemma AbsorbedBases(priced: seq<PricedLeg>)
    requires Pricing.KnownDirections(priced) && (Pricing.Residual(priced) == 0 || Pricing.Absorbs(priced))
    ensures |Pricing.Absorbed(priced)| == |priced|
    ensures forall i :: 0 <= i < |priced| ==>
      var e := priced[i].entry;
      Pricing.Absorbed(priced)[i].entry == e.(base := e.base -
        if i == Pricing.LargestAdjustable(priced) then Sign(e.direction) * Pricing.Residual(priced) else 0)
  {
    Pricing.CountIsZeroIff(priced);
    hide Pricing.LargestAdjustable, Pricing.Residual, Pricing.AdjustableCount;
  }

  /** What a posted draft passed. */
  lemma PostedParts(w: World, b: Books, d: Draft)
    requires Posted(w, b, d).Ok?
    ensures Prepare(w, d.period !in b.closed, d).Ok?
    ensures Posted(w, b, d).value == Made(d, Prepare(w, d.period !in b.closed, d).value)
    ensures d.period !in b.closed && d.period < |w.periods| && d.key != ""
    ensures KeyIndex(b.transfers, d.key) == |b.transfers| && ReverseFree(b.transfers, d.reverses)
    ensures Sufficient(w, b.transfers, d, Posted(w, b, d).value.entries)
    ensures PositiveRows(Posted(w, b, d).value.entries)
  {
    hide Sufficient, PositiveRows, KeyIndex, ReversalIndex;
  }

  /** Passing every check is all it takes to post. */
  lemma PostedFromParts(w: World, b: Books, d: Draft, entries: seq<Entry>)
    requires Prepare(w, true, d) == Ok(entries) && d.period !in b.closed
    requires forall i :: 0 <= i < |LockOrder(w, d.legs)| ==>
      Affordable(w, b.transfers, entries, LockOrder(w, d.legs)[i])
    requires TransferRowError(d).None? && KeyIndex(b.transfers, d.key) == |b.transfers|
    requires ReverseFree(b.transfers, d.reverses) && PositiveRows(entries)
    ensures Posted(w, b, d) == Ok(Made(d, entries))
  {
    assert Sufficient(w, b.transfers, d, entries);
  }
}
