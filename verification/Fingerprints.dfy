/** Canonical request payloads (ledger/idempotency.py, ledger/services.py). */
module Fingerprints {
  import opened Results
  import opened Sorting
  import opened Types
  import Pricing

  // ---- Text of numbers -----------------------------------------------------------------------------------

  function DigitText(d: nat): char requires d < 10 { (48 + d) as char }

  function NatText(n: nat): (s: string)
    ensures |s| > 0 && s[0] != '-'
  {
    if n < 10 then [DigitText(n)] else NatText(n / 10) + [DigitText(n % 10)]
  }

  function NatValue(s: string): int {
    if s == "" then 0 else NatValue(s[..|s| - 1]) * 10 + (s[|s| - 1] as int - 48)
  }

  lemma {:induction false} NatTextValue(n: nat)
    ensures NatValue(NatText(n)) == n
  {
    if n >= 10 {
      NatTextValue(n / 10);
      assert NatText(n)[..|NatText(n)| - 1] == NatText(n / 10);
    } else {
      assert [DigitText(n)][..0] == "";
    }
  }

  function FourDigits(n: nat): (s: string)
    requires n < 10_000
    ensures |s| == 4
  {
    [DigitText(n / 1000), DigitText(n / 100 % 10), DigitText(n / 10 % 10), DigitText(n % 10)]
  }

  lemma DigitValue(d: nat)
    requires d < 10
    ensures DigitText(d) as int - 48 == d
  {
  }

  lemma FourDigitsValue(n: nat)
    requires n < 10_000
    ensures var s := FourDigits(n);
      (s[0] as int - 48) * 1000 + (s[1] as int - 48) * 100 + (s[2] as int - 48) * 10 + (s[3] as int - 48) == n
  {
    var a, b, c, d := n / 1000, n / 100 % 10, n / 10 % 10, n % 10;
    DigitValue(a);
    DigitValue(b);
    DigitValue(c);
    DigitValue(d);
    assert n / 100 == 10 * a + b && n / 10 == 10 * (n / 100) + c && n == 10 * (n / 10) + d;
  }

  /** `money_str`: a sign, the whole units, and exactly four decimal places. */
  function MoneyText(units: int): string {
    var magnitude: nat := if units < 0 then -units else units;
    (if units < 0 then "-" else "") + NatText(magnitude / 10_000) + "." + FourDigits(magnitude % 10_000)
  }

  function MoneyValue(s: string): int
    requires |s| >= 6
  {
    var negative := s[0] == '-';
    var n := |s| - 4;
    var whole := NatValue(s[if negative then 1 else 0..n - 1]);
    var fraction := (s[n] as int - 48) * 1000 + (s[n + 1] as int - 48) * 100 + (s[n + 2] as int - 48) * 10
                    + (s[n + 3] as int - 48);
    if negative then -(whole * 10_000 + fraction) else whole * 10_000 + fraction
  }

  /** Money text reads back as the same amount, so different amounts have different texts. */
  lemma MoneyRoundTrip(units: int)
    ensures |MoneyText(units)| >= 6
    ensures MoneyValue(MoneyText(units)) == units
  {
    var magnitude: nat := if units < 0 then -units else units;
    var whole, fraction := NatText(magnitude / 10_000), FourDigits(magnitude % 10_000);
    var s := MoneyText(units);
    NatTextValue(magnitude / 10_000);
    FourDigitsValue(magnitude % 10_000);
    var n := |s| - 4;
    assert s[n..] == fraction;
    assert s[if units < 0 then 1 else 0..n - 1] == whole;
  }

  // ---- Decimal spellings ---------------------------------------------------------------------------------

  /** A Decimal as written: digits / 10^places. */
  datatype Decimal = Decimal(digits: int, places: nat)

  function Pow10(n: nat): int { if n == 0 then 1 else 10 * Pow10(n - 1) }

  predicate SameValue(a: Decimal, b: Decimal) {
    a.digits * Pow10(b.places) == b.digits * Pow10(a.places)
  }

  lemma {:induction false} Pow10Positive(n: nat)
    ensures Pow10(n) > 0
  {
    if n > 0 {
      Pow10Positive(n - 1);
    }
  }

  /** `d.quantize(FOUR_DP)`, in 0.0001 units. */
  function Quantize(d: Decimal): int {
    Pow10Positive(d.places);
    Pricing.RoundHalfEven(d.digits * 10_000, Pow10(d.places))
  }

  /** At most four decimal places: quantizing loses nothing. */
  predicate FourPlaces(d: Decimal) { Quantize(d) * Pow10(d.places) == d.digits * 10_000 }

  /** Two amounts of at most four places quantize alike exactly when they are the same number. */
  lemma SpellingDoesNotMatter(a: Decimal, b: Decimal)
    requires FourPlaces(a) && FourPlaces(b)
    ensures MoneyText(Quantize(a)) == MoneyText(Quantize(b)) <==> SameValue(a, b)
  {
    MoneyTextInjective(Quantize(a), Quantize(b));
    Pow10Positive(a.places);
    Pow10Positive(b.places);
    CrossMultiply(Quantize(a), Pow10(a.places), a.digits, Quantize(b), Pow10(b.places), b.digits);
  }

  lemma MoneyTextInjective(x: int, y: int)
    ensures MoneyText(x) == MoneyText(y) <==> x == y
  {
    MoneyRoundTrip(x);
    MoneyRoundTrip(y);
  }

  lemma CrossMultiply(x: int, p: int, d: int, y: int, q: int, e: int)
    requires x * p == d * 10_000 && y * q == e * 10_000 && p > 0 && q > 0
    ensures x == y <==> d * q == e * p
  {
    assert (x * p) * q == (d * q) * 10_000;
    assert (y * q) * p == (e * p) * 10_000;
    assert (x * p) * q == x * (p * q) && (y * q) * p == y * (p * q);
    assert p * q > 0;
    Cancel(x, y, p * q);
  }

  lemma Cancel(x: int, y: int, k: int)
    requires k > 0
    ensures x == y <==> x * k == y * k
  {
  }

  // ---- Transfer fingerprints -----------------------------------------------------------------------------

  function DirectionText(d: Direction): string {
    match d
    case Debit => "DEBIT"
    case Credit => "CREDIT"
    case Unknown(text) => text
  }

  function TextOf(leg: Leg): LegText {
    LegText(NatText(leg.account), DirectionText(leg.direction), MoneyText(leg.amount))
  }

  predicate LegTextLe(a: LegText, b: LegText) {
    if a.account != b.account then StrLe(a.account, b.account)
    else if a.direction != b.direction then StrLe(a.direction, b.direction)
    else StrLe(a.amount, b.amount)
  }

  function Texts(legs: seq<Leg>): (r: seq<LegText>)
    ensures |r| == |legs| && forall i :: 0 <= i < |r| ==> r[i] == TextOf(legs[i])
  {
    seq(|legs|, i requires 0 <= i < |legs| => TextOf(legs[i]))
  }

  /** The payload of `post_transfer_idempotent`: the legs' texts, sorted. */
  function TransferFingerprint(kind: TransferType, period: PeriodId, legs: seq<Leg>): Fingerprint {
    TransferPrint(kind, period, Sort(Texts(legs), LegTextLe))
  }

  /** What a leg asks for; its overrides are not part of the request. */
  datatype Asked = Asked(account: AccountId, direction: Direction, amount: int)

  function AskedOf(legs: seq<Leg>): (r: seq<Asked>)
    ensures |r| == |legs|
    ensures forall i :: 0 <= i < |r| ==> r[i] == Asked(legs[i].account, legs[i].direction, legs[i].amount)
  {
    seq(|legs|, i requires 0 <= i < |legs| => Asked(legs[i].account, legs[i].direction, legs[i].amount))
  }

  lemma LegTextOrder()
    ensures TotalOrder(LegTextLe)
    ensures forall a, b :: LegTextLe(a, b) && LegTextLe(b, a) ==> a == b
  {
    StrLeIsTotalOrder();
  }

  predicate ProperDirections(legs: seq<Leg>) { forall i :: 0 <= i < |legs| ==> !legs[i].direction.Unknown? }

  lemma TextDeterminesAsked(a: Leg, b: Leg)
    requires !a.direction.Unknown? && !b.direction.Unknown?
    ensures TextOf(a) == TextOf(b) <==>
      Asked(a.account, a.direction, a.amount) == Asked(b.account, b.direction, b.amount)
  {
    NatTextValue(a.account);
    NatTextValue(b.account);
    MoneyRoundTrip(a.amount);
    MoneyRoundTrip(b.amount);
    assert "DEBIT"[0] != "CREDIT"[0];
  }

  lemma CancelOne<T>(a: multiset<T>, b: multiset<T>, x: T)
    ensures a + multiset{x} == b + multiset{x} <==> a == b
  {
    if a + multiset{x} == b + multiset{x} {
      assert a == (a + multiset{x}) - multiset{x};
      assert b == (b + multiset{x}) - multiset{x};
    }
  }

  lemma StillProper(a: seq<Leg>, b: seq<Leg>, k: nat)
    requires ProperDirections(a) && ProperDirections(b) && a != [] && k < |b|
    ensures ProperDirections(a[..|a| - 1]) && ProperDirections(b[..k] + b[k + 1..])
  {
  }

  /** A leg found in both requests can be struck from both. */
  lemma StrikeOut(a: seq<Leg>, b: seq<Leg>, k: nat)
    requires ProperDirections(a) && ProperDirections(b) && a != [] && k < |b|
    requires AskedOf(b)[k] == AskedOf(a)[|a| - 1]
    ensures var front, rest := a[..|a| - 1], b[..k] + b[k + 1..];
      && (multiset(Texts(a)) == multiset(Texts(b)) <==> multiset(Texts(front)) == multiset(Texts(rest)))
      && (multiset(AskedOf(a)) == multiset(AskedOf(b)) <==> multiset(AskedOf(front)) == multiset(AskedOf(rest)))
  {
    hide Texts, AskedOf, TextOf;
    var n := |a| - 1;
    var front, rest := a[..n], b[..k] + b[k + 1..];
    TextDeterminesAsked(a[n], b[k]);
    TakeOut(a, n);
    TakeOut(b, k);
    assert a[..n] + a[n + 1..] == front;
    CancelOne(multiset(Texts(front)), multiset(Texts(rest)), TextOf(a[n]));
    CancelOne(multiset(AskedOf(front)), multiset(AskedOf(rest)), AskedOf(a)[n]);
  }

  /** Texts and requests identify the same legs, so their multisets agree together. */
  lemma {:induction false} SameMultiset(a: seq<Leg>, b: seq<Leg>)
    requires ProperDirections(a) && ProperDirections(b)
    ensures multiset(Texts(a)) == multiset(Texts(b)) <==> multiset(AskedOf(a)) == multiset(AskedOf(b))
    decreases |a|
  {
    hide Texts, AskedOf, ProperDirections;
    if a == [] {
      assert |multiset(Texts(b))| == |b| && |multiset(AskedOf(b))| == |b|;
    } else if k :| 0 <= k < |b| && AskedOf(b)[k] == AskedOf(a)[|a| - 1] {
      StrikeOut(a, b, k);
      StillProper(a, b, k);
      SameMultiset(a[..|a| - 1], b[..k] + b[k + 1..]);
    } else {
      NotAmong(a, b, |a| - 1);
    }
  }

  lemma TakeOut(s: seq<Leg>, k: nat)
    requires k < |s|
    ensures var rest := s[..k] + s[k + 1..];
      && multiset(Texts(s)) == multiset(Texts(rest)) + multiset{TextOf(s[k])}
      && multiset(AskedOf(s)) == multiset(AskedOf(rest)) + multiset{AskedOf(s)[k]}
  {
    var rest := s[..k] + s[k + 1..];
    assert Texts(s) == Texts(s)[..k] + [TextOf(s[k])] + Texts(s)[k + 1..];
    assert Texts(rest) == Texts(s)[..k] + Texts(s)[k + 1..];
    assert AskedOf(s) == AskedOf(s)[..k] + [AskedOf(s)[k]] + AskedOf(s)[k + 1..];
    assert AskedOf(rest) == AskedOf(s)[..k] + AskedOf(s)[k + 1..];
  }

  lemma NotAmong(a: seq<Leg>, b: seq<Leg>, n: nat)
    requires ProperDirections(a) && ProperDirections(b) && n < |a|
    requires forall k :: 0 <= k < |b| ==> AskedOf(b)[k] != AskedOf(a)[n]
    ensures multiset(Texts(a)) != multiset(Texts(b)) && multiset(AskedOf(a)) != multiset(AskedOf(b))
  {
    forall k | 0 <= k < |b| ensures Texts(b)[k] != Texts(a)[n] {
      TextDeterminesAsked(b[k], a[n]);
      assert AskedOf(b)[k] != AskedOf(a)[n];
    }
    assert Texts(a)[n] in multiset(Texts(a)) && AskedOf(a)[n] in multiset(AskedOf(a));
    assert Texts(a)[n] !in Texts(b) && AskedOf(a)[n] !in AskedOf(b);
  }

  /**
   * Canonical: two valid requests have the same payload exactly when their type, their period and their
   * multiset of (account, direction, amount) agree.
   */
  lemma SamePayloadIff(k1: TransferType, p1: PeriodId, a: seq<Leg>, k2: TransferType, p2: PeriodId, b: seq<Leg>)
    requires ProperDirections(a) && ProperDirections(b)
    ensures TransferFingerprint(k1, p1, a) == TransferFingerprint(k2, p2, b) <==>
      k1 == k2 && p1 == p2 && multiset(AskedOf(a)) == multiset(AskedOf(b))
  {
    LegTextOrder();
    SortCorrect(Texts(a), LegTextLe);
    SortCorrect(Texts(b), LegTextLe);
    if multiset(Texts(a)) == multiset(Texts(b)) {
      SortedUnique(Sort(Texts(a), LegTextLe), Sort(Texts(b), LegTextLe), LegTextLe);
    }
    SameMultiset(a, b);
  }
}
