/** Turning requested legs into priced entries (ledger/pricing.py). */
module Pricing {
  import opened Results
  import opened Sums
  import opened Types

  const RATE_SCALE := 10_000_000_000

  /** The latest rate published on or before `on`. */
  function FxRateFor(rates: seq<FxRate>, from: Currency, to: Currency, on: Date): (r: Option<FxRate>)
    ensures r.None? <==> forall i :: 0 <= i < |rates| ==> !Eligible(rates[i], from, to, on)
    ensures r.Some? ==> r.value in rates && Eligible(r.value, from, to, on)
    ensures r.Some? ==>
      forall i :: 0 <= i < |rates| && Eligible(rates[i], from, to, on) ==> rates[i].asOf <= r.value.asOf
  {
    if rates == [] then None
    else
      var n := |rates| - 1;
      var earlier := FxRateFor(rates[..n], from, to, on);
      assert forall i :: 0 <= i < n ==> rates[i] == rates[..n][i];
      if Eligible(rates[n], from, to, on) && (earlier.None? || earlier.value.asOf < rates[n].asOf)
      then Some(rates[n]) else earlier
  }

  predicate Eligible(r: FxRate, from: Currency, to: Currency, on: Date) {
    r.from == from && r.to == to && r.asOf <= on
  }

  /** Rounding n/d to the nearest integer, ties to even. */
  function RoundHalfEven(n: int, d: int): int
    requires d > 0
  {
    var q, r := n / d, n % d;
    if 2 * r < d || (2 * r == d && q % 2 == 0) then q else q + 1
  }

  lemma RoundsToNearestEven(n: int, d: int)
    requires d > 0
    ensures var m := RoundHalfEven(n, d);
      && -d <= 2 * (m * d - n) <= d
      && (2 * (m * d - n) == d || 2 * (m * d - n) == -d ==> m % 2 == 0)
  {
    assert n == (n / d) * d + n % d;
    assert (n / d + 1) * d == (n / d) * d + d;
  }

  function Convert(amount: int, rate: int): int { RoundHalfEven(amount * rate, RATE_SCALE) }

  /** The exact value of a priced leg before rounding, in 1e-14 units. */
  function Exact(p: PricedLeg): int {
    match p.entry.fxRate
    case None => p.entry.base * RATE_SCALE
    case Some(rate) => p.entry.amount * rate
  }

  predicate KnownAccounts(w: World, legs: seq<Leg>) {
    forall i :: 0 <= i < |legs| ==> legs[i].account < |w.accounts|
  }

  function PriceLeg(w: World, baseCurrency: Currency, on: Date, leg: Leg): (r: Result<PricedLeg, Error>)
    requires leg.account < |w.accounts|
  {
    var currency := w.accounts[leg.account].currency;
    if currency == baseCurrency then
      Ok(Priced(leg, currency, None, leg.amount, false))
    else
      var rate := if leg.fxRate.Some? then leg.fxRate
                  else match FxRateFor(w.rates, currency, baseCurrency, on)
                       case None => None
                       case Some(row) => Some(row.rate);
      if rate.None? then Err(MissingFxRate)
      else Ok(Priced(leg, currency, rate, Convert(leg.amount, rate.value), true))
  }

  /** A caller-supplied base amount is used verbatim and is not adjustable. */
  function Priced(leg: Leg, currency: Currency, rate: Option<int>, base: int, adjustable: bool): PricedLeg {
    match leg.base
    case None => PricedLeg(Entry(leg.account, leg.direction, leg.amount, currency, rate, base), adjustable)
    case Some(given) => PricedLeg(Entry(leg.account, leg.direction, leg.amount, currency, rate, given), false)
  }

  /** A latest rate row for a conversion on a date. */
  ghost predicate Latest(rates: seq<FxRate>, row: FxRate, from: Currency, to: Currency, on: Date) {
    && row in rates && Eligible(row, from, to, on)
    && forall i :: 0 <= i < |rates| && Eligible(rates[i], from, to, on) ==> rates[i].asOf <= row.asOf
  }

  /** A base amount is an amount at a rate, rounded to the nearest unit, to the even one of two. */
  predicate NearestUnit(base: int, amount: int, rate: int) {
    var error := 2 * (base * 10_000_000_000 - amount * rate);
    && -10_000_000_000 <= error <= 10_000_000_000
    && (error == 10_000_000_000 || error == -10_000_000_000 ==> base % 2 == 0)
  }

  /**
   * A leg in the base currency is worth its amount. Another takes the rate it was given, or else a latest one, and
   * is worth its amount at that rate, rounded. A base amount that was given is kept; only a rounded one may be
   * adjusted. A leg has no price exactly when it needs a rate and there is none.
   */
  lemma PricedAsAsked(w: World, baseCurrency: Currency, on: Date, leg: Leg)
    requires leg.account < |w.accounts|
    ensures var r, currency := PriceLeg(w, baseCurrency, on, leg), w.accounts[leg.account].currency;
      && (r.Err? <==> currency != baseCurrency && leg.fxRate.None?
                      && forall i :: 0 <= i < |w.rates| ==> !Eligible(w.rates[i], currency, baseCurrency, on))
      && (r.Err? ==> r.error == MissingFxRate)
    ensures var r, currency := PriceLeg(w, baseCurrency, on, leg), w.accounts[leg.account].currency;
      r.Ok? ==>
        var e := r.value.entry;
        && e.account == leg.account && e.direction == leg.direction && e.amount == leg.amount && e.currency == currency
        && (leg.base.Some? ==> e.base == leg.base.value)
        && r.value.adjustable == (currency != baseCurrency && leg.base.None?)
        && if currency == baseCurrency then e.fxRate.None? && (leg.base.None? ==> e.base == leg.amount)
           else
             && e.fxRate.Some? && (leg.base.None? ==> NearestUnit(e.base, leg.amount, e.fxRate.value))
             && if leg.fxRate.Some? then e.fxRate == leg.fxRate
                else exists row :: Latest(w.rates, row, currency, baseCurrency, on) && e.fxRate.value == row.rate
  {
    var currency := w.accounts[leg.account].currency;
    var row := FxRateFor(w.rates, currency, baseCurrency, on);
    if row.Some? {
      assert Latest(w.rates, row.value, currency, baseCurrency, on);
    }
    hide FxRateFor, Latest;
    var r := PriceLeg(w, baseCurrency, on, leg);
    if r.Ok? && r.value.entry.fxRate.Some? {
      RoundsToNearestEven(leg.amount * r.value.entry.fxRate.value, RATE_SCALE);
    }
    hide RoundHalfEven;
  }

  function PriceEach(w: World, baseCurrency: Currency, on: Date, legs: seq<Leg>)
    : (r: Result<seq<PricedLeg>, Error>)
    requires KnownAccounts(w, legs)
    ensures r.Ok? ==> |r.value| == |legs| && forall i :: 0 <= i < |legs| ==>
      PriceLeg(w, baseCurrency, on, legs[i]) == Ok(r.value[i])
    ensures r.Err? ==> r.error == MissingFxRate
    ensures r.Err? ==> exists i :: 0 <= i < |legs| && PriceLeg(w, baseCurrency, on, legs[i]).Err?
  {
    if legs == [] then Ok([])
    else
      var n := |legs| - 1;
      match PriceEach(w, baseCurrency, on, legs[..n])
      case Err(e) => Err(e)
      case Ok(front) =>
        match PriceLeg(w, baseCurrency, on, legs[n])
        case Err(e) => Err(e)
        case Ok(last) => Ok(front + [last])
  }

  function Entries(priced: seq<PricedLeg>): (r: seq<Entry>)
    ensures |r| == |priced|
    ensures forall i :: 0 <= i < |r| ==> r[i] == priced[i].entry
  {
    seq(|priced|, i requires 0 <= i < |priced| => priced[i].entry)
  }

  function Residual(priced: seq<PricedLeg>): int {
    SumBy(priced, (p: PricedLeg) => SignedBase(p.entry))
  }

  function AdjustableCount(priced: seq<PricedLeg>): int {
    SumBy(priced, (p: PricedLeg) => if p.adjustable then 1 else 0)
  }

  /** The adjustable leg of the largest base amount, the last of them on a tie; |priced| when there is none. */
  function LargestAdjustable(priced: seq<PricedLeg>): (k: nat)
    ensures k <= |priced|
    ensures k == |priced| <==> forall i :: 0 <= i < |priced| ==> !priced[i].adjustable
    ensures k < |priced| ==> priced[k].adjustable && forall i :: 0 <= i < |priced| && priced[i].adjustable ==>
      priced[i].entry.base < priced[k].entry.base || (priced[i].entry.base == priced[k].entry.base && i <= k)
  {
    if priced == [] then 0
    else
      var n := |priced| - 1;
      var k := LargestAdjustable(priced[..n]);
      assert forall i :: 0 <= i < n ==> priced[i] == priced[..n][i];
      if priced[n].adjustable && (k == n || priced[k].entry.base <= priced[n].entry.base) then n
      else if k == n then |priced| else k
  }

  predicate Absorbs(priced: seq<PricedLeg>) {
    Residual(priced) != 0 && AdjustableCount(priced) > 0 &&
    -AdjustableCount(priced) <= Residual(priced) <= AdjustableCount(priced)
  }

  /** Push a rounding residual onto one leg. A larger residual is left for the balance check to reject. */
  function Absorbed(priced: seq<PricedLeg>): seq<PricedLeg> {
    var k := LargestAdjustable(priced);
    if Absorbs(priced) && k < |priced| then
      var e := priced[k].entry;
      var adjustment := if e.direction == Debit then -Residual(priced) else Residual(priced);
      priced[k := priced[k].(entry := e.(base := e.base + adjustment))]
    else priced
  }

  function Price(w: World, baseCurrency: Currency, on: Date, legs: seq<Leg>): (r: Result<seq<Entry>, Error>)
    requires KnownAccounts(w, legs)
  {
    match PriceEach(w, baseCurrency, on, legs)
    case Err(e) => Err(e)
    case Ok(priced) => Ok(Entries(Absorbed(priced)))
  }

  predicate KnownDirections(priced: seq<PricedLeg>) {
    forall i :: 0 <= i < |priced| ==> !priced[i].entry.direction.Unknown?
  }

  lemma {:induction false} EntriesImbalance(priced: seq<PricedLeg>)
    ensures Imbalance(Entries(priced)) == Residual(priced)
  {
    if priced != [] {
      var n := |priced| - 1;
      EntriesImbalance(priced[..n]);
      assert Entries(priced)[..n] == Entries(priced[..n]);
    }
  }

  lemma {:induction false} CountIsZeroIff(priced: seq<PricedLeg>)
    ensures AdjustableCount(priced) >= 0
    ensures AdjustableCount(priced) == 0 <==> LargestAdjustable(priced) == |priced|
  {
    if priced != [] {
      CountIsZeroIff(priced[..|priced| - 1]);
    }
  }

  /**
   * The output balances exactly when the input did, or when its residual is at most one unit for each adjustable
   * leg; and at most the largest adjustable leg changes, by its base amount alone.
   */
  lemma AbsorbBalancesIff(priced: seq<PricedLeg>)
    requires KnownDirections(priced)
    ensures |Absorbed(priced)| == |priced|
    ensures var n, residual := AdjustableCount(priced), Residual(priced);
      Residual(Absorbed(priced)) == 0 <==> residual == 0 || (n > 0 && -n <= residual <= n)
    ensures forall i :: 0 <= i < |priced| && i != LargestAdjustable(priced) ==> Absorbed(priced)[i] == priced[i]
    ensures forall i :: 0 <= i < |priced| ==>
      var a, b := priced[i].entry, Absorbed(priced)[i].entry;
      a.(base := b.base) == b && (a.base - b.base == 0 || a.base - b.base == Residual(priced)
                                  || a.base - b.base == -Residual(priced))
  {
    if Absorbs(priced) {
      AbsorbingCancels(priced);
    }
    hide AdjustableCount, Residual;
  }

  lemma AbsorbingCancels(priced: seq<PricedLeg>)
    requires KnownDirections(priced) && Absorbs(priced)
    ensures LargestAdjustable(priced) < |priced| && Residual(Absorbed(priced)) == 0
  {
    CountIsZeroIff(priced);
    hide AdjustableCount;
    var k := LargestAdjustable(priced);
    SumByUpdate(priced, k, Absorbed(priced)[k], (p: PricedLeg) => SignedBase(p.entry));
  }

  lemma {:induction false} CountIsAtMostAll(priced: seq<PricedLeg>)
    ensures AdjustableCount(priced) <= |priced|
  {
    if priced != [] {
      CountIsAtMostAll(priced[..|priced| - 1]);
    }
  }

  /** A transfer is priced leg by leg; then the base amount of at most one adjustable leg moves, by little. */
  lemma PricedLegByLeg(w: World, baseCurrency: Currency, on: Date, legs: seq<Leg>, i: nat)
    requires KnownAccounts(w, legs) && Price(w, baseCurrency, on, legs).Ok? && i < |legs|
    ensures |Price(w, baseCurrency, on, legs).value| == |legs| && PriceLeg(w, baseCurrency, on, legs[i]).Ok?
    ensures var e := Price(w, baseCurrency, on, legs).value[i];
      var p := PriceLeg(w, baseCurrency, on, legs[i]).value;
      && e == p.entry.(base := e.base) && (!p.adjustable ==> e == p.entry)
      && -|legs| <= e.base - p.entry.base <= |legs|
  {
    hide PriceLeg, AdjustableCount, Residual;
    var priced := PriceEach(w, baseCurrency, on, legs).value;
    CountIsAtMostAll(priced);
    assert priced[i] == PriceLeg(w, baseCurrency, on, legs[i]).value;
  }

  lemma SumByUpdate<T>(s: seq<T>, k: nat, x: T, f: T -> int)
    requires k < |s|
    ensures SumBy(s[k := x], f) == SumBy(s, f) - f(s[k]) + f(x)
  {
    SumByRemove(s, k, f);
    SumByRemove(s[k := x], k, f);
    assert s[k := x][..k] + s[k := x][k + 1..] == s[..k] + s[k + 1..];
  }

  function ExactImbalance(priced: seq<PricedLeg>): int {
    SumBy(priced, (p: PricedLeg) => Sign(p.entry.direction) * Exact(p))
  }

  predicate NoBaseOverride(legs: seq<Leg>) { forall i :: 0 <= i < |legs| ==> legs[i].base.None? }

  lemma LegError(w: World, baseCurrency: Currency, on: Date, leg: Leg)
    requires leg.account < |w.accounts| && leg.base.None?
    requires PriceLeg(w, baseCurrency, on, leg).Ok?
    ensures var p := PriceLeg(w, baseCurrency, on, leg).value;
      var error := 2 * (p.entry.base * RATE_SCALE - Exact(p));
      (if p.adjustable then -RATE_SCALE <= error <= RATE_SCALE else error == 0)
  {
    var p := PriceLeg(w, baseCurrency, on, leg).value;
    if p.adjustable {
      RoundsToNearestEven(leg.amount * p.entry.fxRate.value, RATE_SCALE);
    }
  }

  ghost predicate RoundedEach(priced: seq<PricedLeg>) {
    forall i :: 0 <= i < |priced| ==>
      var error := 2 * (priced[i].entry.base * RATE_SCALE - Exact(priced[i]));
      if priced[i].adjustable then -RATE_SCALE <= error <= RATE_SCALE else error == 0
  }

  lemma {:induction false} ResidualNearExact(priced: seq<PricedLeg>)
    requires RoundedEach(priced)
    ensures var error := 2 * (Residual(priced) * RATE_SCALE - ExactImbalance(priced));
      -RATE_SCALE * AdjustableCount(priced) <= error <= RATE_SCALE * AdjustableCount(priced)
  {
    if priced != [] {
      ResidualNearExact(priced[..|priced| - 1]);
    }
  }

  /**
   * Rounding never unbalances a transfer that balances exactly: with no base override, a residual is at most half
   * a unit for each adjustable leg, it is absorbed, and every base amount ends within (n + 1) / 2 units of exact.
   */
  lemma RoundingNeverUnbalances(w: World, baseCurrency: Currency, on: Date, legs: seq<Leg>)
    requires KnownAccounts(w, legs) && NoBaseOverride(legs)
    requires forall i :: 0 <= i < |legs| ==> !legs[i].direction.Unknown?
    requires PriceEach(w, baseCurrency, on, legs).Ok?
    requires ExactImbalance(PriceEach(w, baseCurrency, on, legs).value) == 0
    ensures var priced := PriceEach(w, baseCurrency, on, legs).value;
      && -AdjustableCount(priced) <= 2 * Residual(priced) <= AdjustableCount(priced)
      && Imbalance(Price(w, baseCurrency, on, legs).value) == 0
      && |Price(w, baseCurrency, on, legs).value| == |legs|
    ensures var priced := PriceEach(w, baseCurrency, on, legs).value;
      forall i :: 0 <= i < |legs| ==>
        var error := 2 * (Price(w, baseCurrency, on, legs).value[i].base * RATE_SCALE - Exact(priced[i]));
        var bound := (AdjustableCount(priced) + 1) * RATE_SCALE;
        -bound <= error <= bound
  {
    var priced := PriceEach(w, baseCurrency, on, legs).value;
    forall i | 0 <= i < |priced|
      ensures var error := 2 * (priced[i].entry.base * RATE_SCALE - Exact(priced[i]));
        if priced[i].adjustable then -RATE_SCALE <= error <= RATE_SCALE else error == 0
    {
      LegError(w, baseCurrency, on, legs[i]);
    }
    AbsorbsRounding(priced);
  }

  /** The same, about legs already priced one by one. */
  lemma AbsorbsRounding(priced: seq<PricedLeg>)
    requires RoundedEach(priced) && KnownDirections(priced) && ExactImbalance(priced) == 0
    ensures -AdjustableCount(priced) <= 2 * Residual(priced) <= AdjustableCount(priced)
    ensures Imbalance(Entries(Absorbed(priced))) == 0
    ensures |Absorbed(priced)| == |priced|
    ensures forall i :: 0 <= i < |priced| ==>
      var error := 2 * (Absorbed(priced)[i].entry.base * RATE_SCALE - Exact(priced[i]));
      var bound := (AdjustableCount(priced) + 1) * RATE_SCALE;
      -bound <= error <= bound
  {
    ResidualNearExact(priced);
    CountIsZeroIff(priced);
    AbsorbBalancesIff(priced);
    EntriesImbalance(Absorbed(priced));
    forall i | 0 <= i < |priced|
      ensures var error := 2 * (Absorbed(priced)[i].entry.base * RATE_SCALE - Exact(priced[i]));
        var bound := (AdjustableCount(priced) + 1) * RATE_SCALE;
        -bound <= error <= bound
    {
      var a, b := priced[i].entry.base, Absorbed(priced)[i].entry.base;
      assert -AdjustableCount(priced) <= 2 * (b - a) <= AdjustableCount(priced);
    }
  }

  const TightWorld := World(
    map[0 := "GBP"], [Account(0, "a", Investments, "AAA", None), Account(0, "b", Investments, "BBB", None)],
    [Period(0, 0, 0)], [],
    [FxRate("AAA", "GBP", 12_000_000_000, 0), FxRate("BBB", "GBP", 6_000_000_000, 0)])
  const TightCredit := Leg(0, Credit, 1, None, None)
  const TightDebit := Leg(1, Debit, 1, None, None)
  const TightLegs := [TightCredit, TightDebit, TightDebit]
  const TightPriced := [
    PricedLeg(Entry(0, Credit, 1, "AAA", Some(12_000_000_000), 1), true),
    PricedLeg(Entry(1, Debit, 1, "BBB", Some(6_000_000_000), 1), true),
    PricedLeg(Entry(1, Debit, 1, "BBB", Some(6_000_000_000), 1), true)]

  lemma TightRates()
    ensures FxRateFor(TightWorld.rates, "AAA", "GBP", 0) == Some(TightWorld.rates[0])
    ensures FxRateFor(TightWorld.rates, "BBB", "GBP", 0) == Some(TightWorld.rates[1])
  {
    assert Eligible(TightWorld.rates[0], "AAA", "GBP", 0) && Eligible(TightWorld.rates[1], "BBB", "GBP", 0);
  }

  lemma TightPrices()
    ensures PriceEach(TightWorld, "GBP", 0, TightLegs) == Ok(TightPriced)
  {
    TightRates();
    assert PriceLeg(TightWorld, "GBP", 0, TightCredit) == Ok(TightPriced[0]);
    assert PriceLeg(TightWorld, "GBP", 0, TightDebit) == Ok(TightPriced[1]);
    var r := PriceEach(TightWorld, "GBP", 0, TightLegs);
    assert forall i :: 0 <= i < 3 ==> PriceLeg(TightWorld, "GBP", 0, TightLegs[i]).Ok?;
    assert r.value == TightPriced;
  }

  /**
   * But the guard on positive base amounts can still reject it: absorbing a residual can use up a leg. Here
   * 2 x 0.6 of one currency is exactly 1.2 of another.
   */
  lemma AbsorptionCanEmptyALeg()
    ensures var priced := PriceEach(TightWorld, "GBP", 0, TightLegs);
      var r := Price(TightWorld, "GBP", 0, TightLegs);
      && priced.Ok? && ExactImbalance(priced.value) == 0
      && r.Ok? && |r.value| == 3 && Imbalance(r.value) == 0 && r.value[2].base == 0
  {
    TightPrices();
    TightSums();
    hide PriceEach, Residual, AdjustableCount, ExactImbalance;
    AbsorbBalancesIff(TightPriced);
    EntriesImbalance(Absorbed(TightPriced));
  }

  lemma TightSums()
    ensures Residual(TightPriced) == 1 && AdjustableCount(TightPriced) == 3 && ExactImbalance(TightPriced) == 0
    ensures LargestAdjustable(TightPriced) == 2
  {
    var p := TightPriced;
    ThreeTerms(p[0], p[1], p[2], (p: PricedLeg) => SignedBase(p.entry));
    ThreeTerms(p[0], p[1], p[2], (p: PricedLeg) => if p.adjustable then 1 else 0);
    ThreeTerms(p[0], p[1], p[2], (p: PricedLeg) => Sign(p.entry.direction) * Exact(p));
    assert [p[0], p[1], p[2]] == p;
    hide LargestAdjustable;
    assert p[2].adjustable && p[2].entry.base == 1;
  }

  lemma ThreeTerms<T>(a: T, b: T, c: T, f: T -> int)
    ensures SumBy([a, b, c], f) == f(a) + f(b) + f(c)
  {
    assert [a, b, c] == ([] + [a] + [b]) + [c];
    SumByAppend([], a, f);
    SumByAppend([] + [a], b, f);
    SumByAppend([] + [a] + [b], c, f);
  }

  /** A leg worth more than (n + 1) / 2 units keeps a positive base amount. */
  lemma SubstantialLegStaysPositive(w: World, baseCurrency: Currency, on: Date, legs: seq<Leg>, i: nat)
    requires KnownAccounts(w, legs) && NoBaseOverride(legs) && i < |legs|
    requires forall i :: 0 <= i < |legs| ==> !legs[i].direction.Unknown?
    requires PriceEach(w, baseCurrency, on, legs).Ok?
    requires ExactImbalance(PriceEach(w, baseCurrency, on, legs).value) == 0
    requires var priced := PriceEach(w, baseCurrency, on, legs).value;
      2 * Exact(priced[i]) > (AdjustableCount(priced) + 1) * RATE_SCALE
    ensures |Price(w, baseCurrency, on, legs).value| == |legs| && Price(w, baseCurrency, on, legs).value[i].base > 0
  {
    RoundingNeverUnbalances(w, baseCurrency, on, legs);
  }

  /** `_absorb_rounding_residual`. */
  method AbsorbRoundingResidual(legs: seq<PricedLeg>) returns (priced: seq<PricedLeg>)
    ensures priced == Absorbed(legs)
  {
    priced := legs;
    var residual := Residual(priced);
    if residual == 0 {
      return;
    }
    var n := AdjustableCount(priced);
    CountIsZeroIff(priced);
    if n == 0 || residual > n || -residual > n {
      return;
    }
    var i := LargestAdjustable(priced);
    var e := priced[i].entry;
    var adjustment := if e.direction == Debit then -residual else residual;
    priced := priced[i := priced[i].(entry := e.(base := e.base + adjustment))];
  }

  /** `price_legs`, with its cache of the rates already looked up. */
  method PriceLegs(w: World, baseCurrency: Currency, on: Date, legs: seq<Leg>)
    returns (r: Result<seq<Entry>, Error>)
    requires KnownAccounts(w, legs)
    ensures r == Price(w, baseCurrency, on, legs)
  {
    var rates: map<Currency, int> := map[];
    var priced: seq<PricedLeg> := [];
    for n := 0 to |legs|
      invariant PriceEach(w, baseCurrency, on, legs[..n]) == Ok(priced)
      invariant forall c :: c in rates ==>
        FxRateFor(w.rates, c, baseCurrency, on).Some? && rates[c] == FxRateFor(w.rates, c, baseCurrency, on).value.rate
    {
      var leg := legs[n];
      assert legs[..n + 1][..n] == legs[..n];
      var currency := w.accounts[leg.account].currency;
      var fxRate, base, adjustable := None, leg.amount, false;
      if currency != baseCurrency {
        if leg.fxRate.Some? {
          fxRate := leg.fxRate;
        } else {
          if currency !in rates {
            var row := FxRateFor(w.rates, currency, baseCurrency, on);
            if row.None? {
              FirstErrorWins(w, baseCurrency, on, legs, n);
              return Err(MissingFxRate);
            }
            rates := rates[currency := row.value.rate];
          }
          fxRate := Some(rates[currency]);
        }
        base, adjustable := Convert(leg.amount, fxRate.value), true;
      }
      if leg.base.Some? {
        base, adjustable := leg.base.value, false;
      }
      priced := priced + [PricedLeg(Entry(leg.account, leg.direction, leg.amount, currency, fxRate, base), adjustable)];
    }
    assert legs[..|legs|] == legs;
    var absorbed := AbsorbRoundingResidual(priced);
    r := Ok(Entries(absorbed));
  }

  lemma FirstErrorWins(w: World, baseCurrency: Currency, on: Date, legs: seq<Leg>, n: nat)
    requires KnownAccounts(w, legs) && n < |legs| && PriceLeg(w, baseCurrency, on, legs[n]) == Err(MissingFxRate)
    ensures PriceEach(w, baseCurrency, on, legs) == Err(MissingFxRate)
  {
  }
}
