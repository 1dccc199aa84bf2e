/** What every operation keeps: the books' integrity in every serial run. */
module Invariants {
  import opened Results
  import opened Sums
  import opened Types
  import opened Chart
  import opened Queries
  import opened Posting
  import opened Operations
  import Pricing

  function FlippedEntry(e: Entry): Entry { e.(direction := Flip(e.direction)) }

  function FlippedEntries(entries: seq<Entry>): (r: seq<Entry>)
    ensures |r| == |entries| && forall i :: 0 <= i < |r| ==> r[i] == FlippedEntry(entries[i])
  {
    seq(|entries|, i requires 0 <= i < |entries| => FlippedEntry(entries[i]))
  }

  ghost predicate EntriesOk(w: World, fund: FundId, entries: seq<Entry>) {
    (forall i :: 0 <= i < |entries| ==> EntryOk(w, fund, entries[i])) && PositiveRows(entries)
  }

  /** A transfer that names a target is that target's exact cancellation. */
  ghost predicate ReversalOk(ts: seq<Transfer>, t: Transfer) {
    && ((t.kind == Reversal) == t.reverses.Some?)
    && (t.reverses.Some? ==>
          && t.reverses.value < |ts|
          && ts[t.reverses.value].kind != Reversal
          && t.entries == FlippedEntries(ts[t.reverses.value].entries)
          && t.hash == ReversalPrint(t.reverses.value, t.period))
  }

  ghost predicate TransferOk(w: World, ts: seq<Transfer>, t: Transfer) {
    && t.period < |w.periods|
    && t.key != ""
    && |t.entries| >= 2
    && EntriesOk(w, w.periods[t.period].fund, t.entries)
    && Imbalance(t.entries) == 0
    && ReversalOk(ts, t)
  }

  ghost predicate TransfersOk(w: World, ts: seq<Transfer>) {
    forall i :: 0 <= i < |ts| ==> TransferOk(w, ts[..i], ts[i])
  }

  ghost predicate UniqueKeys(ts: seq<Transfer>) {
    forall i, j :: 0 <= i < j < |ts| ==> ts[i].key != ts[j].key
  }

  ghost predicate UniqueReversals(ts: seq<Transfer>) {
    forall i, j :: 0 <= i < j < |ts| && ts[i].reverses.Some? ==> ts[i].reverses != ts[j].reverses
  }

  ghost predicate CashNonNegative(w: World, ts: seq<Transfer>) {
    forall a :: 0 <= a < |w.accounts| && w.accounts[a].kind == Cash ==> NativeBalance(ts, a) >= 0
  }

  ghost predicate LedgerOk(w: World, ts: seq<Transfer>) {
    TransfersOk(w, ts) && UniqueKeys(ts) && UniqueReversals(ts) && CashNonNegative(w, ts)
  }

  /** The closed periods of each fund form a prefix by start date. */
  ghost predicate ClosedPrefix(w: World, closed: set<PeriodId>) {
    forall p: nat :: p in closed ==> p < |w.periods| && EarlierClosed(w, closed, p)
  }

  function TagCount(tags: seq<Tag>, fund: FundId): nat {
    if tags == [] then 0
    else TagCount(tags[..|tags| - 1], fund) + if tags[|tags| - 1].fund == fund then 1 else 0
  }

  /** Each document carries the next number of its fund. */
  ghost predicate TagsOk(tags: seq<Tag>) {
    forall n :: 0 <= n < |tags| ==> tags[n].number == TagCount(tags[..n], tags[n].fund) + 1
  }

  ghost predicate Numbered(b: Books) { TagsOk(CallTags(b.calls)) && TagsOk(DistributionTags(b.distributions)) }

  ghost predicate BooksOk(w: World, b: Books) {
    LedgerOk(w, b.transfers) && ClosedPrefix(w, b.closed) && Numbered(b)
  }

  // ---- Reversals price verbatim --------------------------------------------------------------------------

  lemma FlippedLegPricesVerbatim(w: World, fund: FundId, on: Date, e: Entry)
    requires EntryOk(w, fund, e)
    ensures Pricing.PriceLeg(w, BaseCurrency(w, fund), on, FlippedLeg(e)) == Ok(PricedLeg(FlippedEntry(e), false))
  {
  }

  /** `price_legs` returns a reversal's legs verbatim: the original rates and base amounts, directions flipped. */
  lemma ReversalPricesVerbatim(w: World, fund: FundId, on: Date, entries: seq<Entry>)
    requires forall i :: 0 <= i < |entries| ==> EntryOk(w, fund, entries[i])
    ensures Pricing.KnownAccounts(w, FlippedLegs(entries))
    ensures Pricing.Price(w, BaseCurrency(w, fund), on, FlippedLegs(entries)) == Ok(FlippedEntries(entries))
  {
    var legs := FlippedLegs(entries);
    var base := BaseCurrency(w, fund);
    forall i | 0 <= i < |legs|
      ensures legs[i].account < |w.accounts|
      ensures Pricing.PriceLeg(w, base, on, legs[i]) == Ok(PricedLeg(FlippedEntry(entries[i]), false))
    {
      FlippedLegPricesVerbatim(w, fund, on, entries[i]);
    }
    var priced := Pricing.PriceEach(w, base, on, legs);
    assert priced.Ok?;
    Pricing.CountIsZeroIff(priced.value);
    assert Pricing.Absorbed(priced.value) == priced.value;
    assert Pricing.Entries(priced.value) == FlippedEntries(entries);
  }

  // ---- Posting keeps the ledger's integrity --------------------------------------------------------------

  /** A draft that reverses something was made from the transfer it reverses. */
  ghost predicate DraftFits(ts: seq<Transfer>, d: Draft) {
    d.reverses.Some? ==>
      && d.reverses.value < |ts| && ts[d.reverses.value].kind != Reversal
      && d.legs == FlippedLegs(ts[d.reverses.value].entries)
      && d.hash == ReversalPrint(d.reverses.value, d.period)
  }

  /** The fund of a transfer is the fund of its accounts. */
  lemma SameFundAsOriginal(w: World, t: Transfer, d: Draft)
    requires t.period < |w.periods| && |t.entries| >= 2 && EntriesOk(w, w.periods[t.period].fund, t.entries)
    requires d.period < |w.periods| && d.legs == FlippedLegs(t.entries)
    requires Pricing.KnownAccounts(w, d.legs) && SameFund(w, d.period, d.legs)
    ensures w.periods[d.period].fund == w.periods[t.period].fund
  {
    assert d.legs[0] == FlippedLeg(t.entries[0]);
    assert EntryOk(w, w.periods[t.period].fund, t.entries[0]);
  }

  lemma PostedReversalOk(w: World, ts: seq<Transfer>, open: bool, d: Draft)
    requires TransfersOk(w, ts) && DraftFits(ts, d) && TransferRowError(d).None?
    requires Prepare(w, open, d).Ok?
    ensures ReversalOk(ts, Made(d, Prepare(w, open, d).value))
  {
    if d.reverses.Some? {
      var j := d.reverses.value;
      PreparedDraft(w, open, d);
      assert TransferOk(w, ts[..j], ts[j]);
      SameFundAsOriginal(w, ts[j], d);
      ReversalPricesVerbatim(w, w.periods[ts[j].period].fund, d.fxDate, ts[j].entries);
    }
  }

  lemma PostedTransferOk(w: World, b: Books, d: Draft)
    requires TransfersOk(w, b.transfers) && DraftFits(b.transfers, d) && Posted(w, b, d).Ok?
    ensures TransferOk(w, b.transfers, Posted(w, b, d).value)
  {
    hide Posted, Sufficient, KeyIndex, ReverseFree;
    var open := d.period !in b.closed;
    PostedParts(w, b, d);
    PostedTransferRow(w, b, d);
    PreparedEntries(w, open, d);
    PostedReversalOk(w, b.transfers, open, d);
  }

  lemma PostedTransferRow(w: World, b: Books, d: Draft)
    requires Posted(w, b, d).Ok?
    ensures TransferRowError(d).None?
  {
    hide Prepare, Sufficient, PositiveRows, KeyIndex, ReverseFree;
  }

  lemma TransfersOkAppend(w: World, ts: seq<Transfer>, t: Transfer)
    requires TransfersOk(w, ts) && TransferOk(w, ts, t)
    ensures TransfersOk(w, ts + [t])
  {
    forall i | 0 <= i < |ts + [t]| ensures TransferOk(w, (ts + [t])[..i], (ts + [t])[i]) {
      assert (ts + [t])[..i] == ts[..i];
      assert ts[..|ts|] == ts;
    }
  }

  lemma UntouchedNative(entries: seq<Entry>, a: AccountId)
    requires forall i :: 0 <= i < |entries| ==> entries[i].account != a
    ensures NativeOn(entries, a) == 0
  {
    SumByZero(entries, (e: Entry) => if e.account == a then SignedAmount(e) else 0);
  }

  lemma PostedAffordable(w: World, b: Books, d: Draft, a: AccountId)
    requires a < |w.accounts| && w.accounts[a].kind == Cash && Posted(w, b, d).Ok?
    ensures var delta := NativeOn(Posted(w, b, d).value.entries, a);
      delta >= 0 || NativeBalance(b.transfers, a) + delta >= 0
  {
    hide Posted, Prepare, NativeBalance, NativeOn, EntryOk, PositiveRows, KeyIndex, ReverseFree;
    var entries := Posted(w, b, d).value.entries;
    PostedParts(w, b, d);
    PreparedEntries(w, d.period !in b.closed, d);
    if Touches(d.legs, a) {
      assert a in LockOrder(w, d.legs);
      var i :| 0 <= i < |LockOrder(w, d.legs)| && LockOrder(w, d.legs)[i] == a;
      assert Affordable(w, b.transfers, entries, LockOrder(w, d.legs)[i]);
    } else {
      forall i | 0 <= i < |entries| ensures entries[i].account != a {
        assert BooksLeg(entries[i], d.legs[i]);
      }
      UntouchedNative(entries, a);
    }
  }

  /** Overdraft safety of one posting: every cash account it touches was checked, the others do not move. */
  lemma PostedKeepsCash(w: World, b: Books, d: Draft)
    requires CashNonNegative(w, b.transfers) && Posted(w, b, d).Ok?
    ensures CashNonNegative(w, b.transfers + [Posted(w, b, d).value])
  {
    hide Posted, NativeBalance, NativeOn;
    var t := Posted(w, b, d).value;
    forall a | 0 <= a < |w.accounts| && w.accounts[a].kind == Cash
      ensures NativeBalance(b.transfers + [t], a) >= 0
    {
      NativeAppend(b.transfers, t, a);
      PostedAffordable(w, b, d, a);
    }
  }

  lemma PostedKeepsUnique(w: World, b: Books, d: Draft)
    requires UniqueKeys(b.transfers) && UniqueReversals(b.transfers) && Posted(w, b, d).Ok?
    ensures UniqueKeys(b.transfers + [Posted(w, b, d).value])
    ensures UniqueReversals(b.transfers + [Posted(w, b, d).value])
  {
    hide Posted, Prepare, Sufficient, PositiveRows;
    PostedParts(w, b, d);
    if d.reverses.Some? {
      assert ReversalIndex(b.transfers, d.reverses.value) == |b.transfers|;
    }
  }

  lemma PostedKeepsLedger(w: World, b: Books, d: Draft)
    requires LedgerOk(w, b.transfers) && DraftFits(b.transfers, d) && Posted(w, b, d).Ok?
    ensures LedgerOk(w, b.transfers + [Posted(w, b, d).value])
  {
    PostedTransferOk(w, b, d);
    TransfersOkAppend(w, b.transfers, Posted(w, b, d).value);
    PostedKeepsCash(w, b, d);
    PostedKeepsUnique(w, b, d);
  }

  // ---- Numbering -----------------------------------------------------------------------------------------

  lemma FrontTagsOk(tags: seq<Tag>, m: nat)
    requires TagsOk(tags) && m <= |tags|
    ensures TagsOk(tags[..m])
  {
    forall n | 0 <= n < m ensures tags[..m][n].number == TagCount(tags[..m][..n], tags[..m][n].fund) + 1 {
      assert tags[..m][..n] == tags[..n];
    }
  }

  lemma {:induction false} LastNumberIsCount(tags: seq<Tag>, fund: FundId)
    requires TagsOk(tags)
    ensures LastNumber(tags, fund) == TagCount(tags, fund)
  {
    if tags != [] {
      FrontTagsOk(tags, |tags| - 1);
      LastNumberIsCount(tags[..|tags| - 1], fund);
    }
  }

  lemma NextTagOk(tags: seq<Tag>, fund: FundId)
    requires TagsOk(tags)
    ensures TagsOk(tags + [Tag(fund, LastNumber(tags, fund) + 1)])
  {
    LastNumberIsCount(tags, fund);
    var longer := tags + [Tag(fund, LastNumber(tags, fund) + 1)];
    forall n | 0 <= n < |longer| ensures longer[n].number == TagCount(longer[..n], longer[n].fund) + 1 {
      assert longer[..n] == tags[..n];
      assert tags[..|tags|] == tags;
    }
  }

  lemma DocumentKeepsNumbers(b: Books, t: Transfer, req: Request)
    requires Numbered(b)
    ensures Numbered(WithDocument(AddTransfer(b, t), req, NextNumber(b, req), |b.transfers|))
  {
    hide TagsOk;
    if req.Call? {
      CallKeepsNumbers(b, t, req);
    } else if req.Distribute? {
      DistributionKeepsNumbers(b, t, req);
    }
  }

  lemma CallKeepsNumbers(b: Books, t: Transfer, req: Request)
    requires req.Call? && TagsOk(CallTags(b.calls))
    ensures var after := WithDocument(AddTransfer(b, t), req, NextNumber(b, req), |b.transfers|);
      TagsOk(CallTags(after.calls)) && after.distributions == b.distributions
  {
    hide TagsOk, LastNumber;
    var after := WithDocument(AddTransfer(b, t), req, NextNumber(b, req), |b.transfers|);
    var tags := CallTags(b.calls);
    NextTagOk(tags, req.fund);
    assert CallTags(after.calls) == tags + [Tag(req.fund, LastNumber(tags, req.fund) + 1)];
  }

  lemma DistributionKeepsNumbers(b: Books, t: Transfer, req: Request)
    requires req.Distribute? && TagsOk(DistributionTags(b.distributions))
    ensures var after := WithDocument(AddTransfer(b, t), req, NextNumber(b, req), |b.transfers|);
      TagsOk(DistributionTags(after.distributions)) && after.calls == b.calls
  {
    hide TagsOk, LastNumber;
    var after := WithDocument(AddTransfer(b, t), req, NextNumber(b, req), |b.transfers|);
    var tags := DistributionTags(b.distributions);
    NextTagOk(tags, req.fund);
    assert DistributionTags(after.distributions) == tags + [Tag(req.fund, LastNumber(tags, req.fund) + 1)];
  }

  lemma CreatedParts(w: World, b: Books, req: Request, source: Option<Transfer>)
    requires !req.Close? && Created(w, b, req, source).Ok?
    ensures Posted(w, b, DraftOf(w, req, source)).Ok?
    ensures var t := Posted(w, b, DraftOf(w, req, source)).value;
      Created(w, b, req, source).value == WithDocument(AddTransfer(b, t), req, NextNumber(b, req), |b.transfers|)
    ensures Created(w, b, req, source).value.transfers == b.transfers + [Posted(w, b, DraftOf(w, req, source)).value]
    ensures Created(w, b, req, source).value.closed == b.closed
  {
  }

  predicate HasNumber(tags: seq<Tag>, fund: FundId, k: nat) {
    exists n :: 0 <= n < |tags| && tags[n] == Tag(fund, k)
  }

  lemma {:induction false} NumbersUsed(tags: seq<Tag>, fund: FundId, k: nat)
    requires TagsOk(tags)
    ensures 1 <= k <= TagCount(tags, fund) <==> HasNumber(tags, fund, k)
  {
    if tags != [] {
      var last := |tags| - 1;
      FrontTagsOk(tags, last);
      NumbersUsed(tags[..last], fund, k);
      assert HasNumber(tags, fund, k) <==> HasNumber(tags[..last], fund, k) || tags[last] == Tag(fund, k);
    }
  }

  lemma {:induction false} TagCountGrows(tags: seq<Tag>, m: nat, fund: FundId)
    requires m <= |tags|
    ensures TagCount(tags[..m], fund) <= TagCount(tags, fund)
    decreases |tags|
  {
    if m == |tags| {
      assert tags[..m] == tags;
    } else {
      var last := |tags| - 1;
      TagCountGrows(tags[..last], m, fund);
      assert tags[..last][..m] == tags[..m];
    }
  }

  /** Gap-free: a fund's numbers are exactly 1..n, and rise in the order of its documents. */
  lemma NumbersGapFree(tags: seq<Tag>, fund: FundId)
    requires TagsOk(tags)
    ensures forall k: nat :: HasNumber(tags, fund, k) <==> 1 <= k <= TagCount(tags, fund)
    ensures forall m, n :: 0 <= m < n < |tags| && tags[m].fund == tags[n].fund ==> tags[m].number < tags[n].number
  {
    hide TagsOk, HasNumber, TagCount;
    forall k: nat ensures HasNumber(tags, fund, k) <==> 1 <= k <= TagCount(tags, fund) {
      NumbersUsed(tags, fund, k);
    }
    forall m, n | 0 <= m < n < |tags| && tags[m].fund == tags[n].fund ensures tags[m].number < tags[n].number {
      NumbersRise(tags, m, n);
    }
  }

  lemma NumbersRise(tags: seq<Tag>, m: nat, n: nat)
    requires TagsOk(tags) && m < n < |tags| && tags[m].fund == tags[n].fund
    ensures tags[m].number < tags[n].number
  {
    TagCountGrows(tags[..n], m + 1, tags[m].fund);
    assert tags[..n][..m + 1] == tags[..m] + [tags[m]];
    assert (tags[..m] + [tags[m]])[..m] == tags[..m];
    assert tags[m].number == TagCount(tags[..m], tags[m].fund) + 1;
    assert tags[n].number == TagCount(tags[..n], tags[n].fund) + 1;
  }

  // ---- Every operation keeps the books ------------------------------------------------------------------

  lemma CreatedKeepsBooks(w: World, b: Books, req: Request, source: Option<Transfer>)
    requires !req.Close? && BooksOk(w, b) && DraftFits(b.transfers, DraftOf(w, req, source))
    requires Created(w, b, req, source).Ok?
    ensures BooksOk(w, Created(w, b, req, source).value)
  {
    var d := DraftOf(w, req, source);
    CreatedParts(w, b, req, source);
    PostedKeepsLedger(w, b, d);
    DocumentKeepsNumbers(b, Posted(w, b, d).value, req);
  }

  lemma CloseKeepsPrefix(w: World, b: Books, fund: FundId, period: PeriodId)
    requires ClosedPrefix(w, b.closed)
    ensures ClosedPrefix(w, ClosedBooks(w, b, fund, period).0.closed)
  {
  }

  /** A request either leaves the books alone or adds what its create closure makes. */
  lemma ExecuteOutcome(w: World, b: Books, req: Request)
    requires !req.Close?
    ensures var source := SourceOf(b.transfers, req);
      Execute(w, b, req).0 == b ||
      (Created(w, b, req, source).Ok? && Execute(w, b, req).0 == Created(w, b, req, source).value &&
       DraftFits(b.transfers, DraftOf(w, req, source)))
  {
  }

  /** The transfer that a request created. */
  function NewTransfer(w: World, b: Books, req: Request): Transfer
    requires !req.Close? && Posted(w, b, DraftOf(w, req, SourceOf(b.transfers, req))).Ok?
  {
    Posted(w, b, DraftOf(w, req, SourceOf(b.transfers, req))).value
  }

  predicate JustCreated(w: World, b: Books, req: Request) {
    !req.Close? && Execute(w, b, req).1.Transferred? && Execute(w, b, req).1.created
  }

  lemma CreatedFrom(w: World, b: Books, req: Request)
    requires JustCreated(w, b, req)
    ensures var source := SourceOf(b.transfers, req);
      && Created(w, b, req, source).Ok? && Posted(w, b, DraftOf(w, req, source)).Ok?
      && DraftFits(b.transfers, DraftOf(w, req, source))
    ensures Execute(w, b, req)
      == (Created(w, b, req, SourceOf(b.transfers, req)).value, Transferred(|b.transfers|, true))
    ensures Execute(w, b, req).0.transfers == b.transfers + [NewTransfer(w, b, req)]
    ensures Execute(w, b, req).0.closed == b.closed
  {
    CreatedByExecute(w, b, req);
    hide Execute, Created, DraftOf, Posted, DraftFits;
    CreatedParts(w, b, req, SourceOf(b.transfers, req));
  }

  lemma CreatedByExecute(w: World, b: Books, req: Request)
    requires JustCreated(w, b, req)
    ensures Created(w, b, req, SourceOf(b.transfers, req)).Ok?
    ensures DraftFits(b.transfers, DraftOf(w, req, SourceOf(b.transfers, req)))
    ensures Execute(w, b, req)
      == (Created(w, b, req, SourceOf(b.transfers, req)).value, Transferred(|b.transfers|, true))
  {
    hide Created, KeyIndex, PlanFor, ReversalIndex, ValidLegs;
  }

  lemma CloseOutcome(w: World, b: Books, fund: FundId, period: PeriodId)
    ensures var after := ClosedBooks(w, b, fund, period).0;
      after == b || (period < |w.periods| && EarlierClosed(w, b.closed, period) && period !in b.closed
                     && after == b.(closed := b.closed + {period}))
  {
  }

  /** Every operation keeps the books' integrity. */
  lemma ExecuteKeepsBooks(w: World, b: Books, req: Request)
    requires BooksOk(w, b)
    ensures BooksOk(w, Execute(w, b, req).0)
  {
    if req.Close? {
      CloseOutcome(w, b, req.fund, req.closing);
      CloseKeepsPrefix(w, b, req.fund, req.closing);
    } else {
      ExecuteOutcome(w, b, req);
      if Execute(w, b, req).0 != b {
        CreatedKeepsBooks(w, b, req, SourceOf(b.transfers, req));
      }
    }
  }

  /** In every serial run from empty books, the integrity holds at the end. */
  lemma {:induction false} SerialRunsKeepBooks(w: World, reqs: seq<Request>)
    ensures BooksOk(w, ExecuteAll(w, EmptyBooks, reqs))
  {
    if reqs == [] {
      forall a ensures NativeBalance([], a) == 0 {}
    } else {
      SerialRunsKeepBooks(w, reqs[..|reqs| - 1]);
      ExecuteKeepsBooks(w, ExecuteAll(w, EmptyBooks, reqs[..|reqs| - 1]), reqs[|reqs| - 1]);
    }
  }
}
