/**
 * Pro-rata allocation by the largest-remainder method (operations/allocation.py).
 *
 * A mapping is the sequence of its items in iteration order; `text` is str(key). Totals, quanta and
 * weights are integers in one money unit, so the source's exact fractions are compared by their numerators
 * over the weight sum.
 */
module Allocation {
  import opened Results
  import opened Sums
  import opened Sorting

  datatype Item = Item(text: string, weight: int)
  datatype Row = Row(pos: nat, item: Item)
  datatype ValueError = NoRecipients | NegativeWeight | ZeroWeights | NotWholeMultiple

  function Abs(x: int): nat { if x < 0 then -x else x }

  function WeightSum(items: seq<Item>): int { SumBy(items, (it: Item) => it.weight) }

  predicate Usable(items: seq<Item>) {
    (forall i :: 0 <= i < |items| ==> items[i].weight >= 0) && WeightSum(items) > 0
  }

  function Floor(u: nat, w: int, it: Item): int requires w > 0 { u * it.weight / w }

  function Remainder(u: nat, w: int, it: Item): int requires w > 0 { u * it.weight % w }

  /** The sort key: larger remainder first, then the smaller text. */
  predicate Precedes(u: nat, w: int, a: Item, b: Item)
    requires w > 0
  {
    var ra, rb := Remainder(u, w, a), Remainder(u, w, b);
    ra > rb || (ra == rb && a.text != b.text && StrLe(a.text, b.text))
  }

  /** The order of the sorted rows; rows whose keys tie stay in iteration order. */
  predicate RowLe(u: nat, w: int, a: Row, b: Row)
    requires w > 0
  {
    Precedes(u, w, a.item, b.item) || (!Precedes(u, w, b.item, a.item) && a.pos <= b.pos)
  }

  function Rows(items: seq<Item>): (r: seq<Row>)
    ensures |r| == |items|
    ensures forall i :: 0 <= i < |r| ==> r[i] == Row(i, items[i])
  {
    seq(|items|, i requires 0 <= i < |items| => Row(i, items[i]))
  }

  function ByRemainder(u: nat, w: int, items: seq<Item>): seq<Row>
    requires w > 0
  {
    Sort(Rows(items), (a, b) => RowLe(u, w, a, b))
  }

  function FloorSum(u: nat, w: int, items: seq<Item>): int
    requires w > 0
  {
    SumBy(items, it => Floor(u, w, it))
  }

  function Leftover(u: nat, w: int, items: seq<Item>): int
    requires w > 0
  {
    u - FloorSum(u, w, items)
  }

  /** How many rows come strictly before `r`. */
  function Rank(u: nat, w: int, items: seq<Item>, r: Row): int
    requires w > 0
  {
    SumBy(Rows(items), x => if x != r && RowLe(u, w, x, r) then 1 else 0)
  }

  function Units(u: nat, items: seq<Item>, i: nat): int
    requires i < |items| && WeightSum(items) > 0
  {
    var w := WeightSum(items);
    Floor(u, w, items[i]) +
    if Rank(u, w, items, Row(i, items[i])) < Leftover(u, w, items) then 1 else 0
  }

  /** The split `allocate` returns, or the ValueError it raises. */
  function Allocated(total: int, items: seq<Item>, quantum: int): (r: Result<seq<int>, ValueError>)
    requires quantum > 0
    ensures r.Ok? ==> |r.value| == |items|
  {
    if items == [] then Err(NoRecipients)
    else if exists i :: 0 <= i < |items| && items[i].weight < 0 then Err(NegativeWeight)
    else if WeightSum(items) == 0 then Err(ZeroWeights)
    else if Abs(total) % quantum != 0 then Err(NotWholeMultiple)
    else
      WeightSumNonNegative(items);
      Ok(seq(|items|, i requires 0 <= i < |items| =>
        SignedQuantum(total, quantum) * Units(Abs(total) / quantum, items, i)))
  }

  function SignedQuantum(total: int, quantum: int): int { if total < 0 then -quantum else quantum }

  lemma WeightSumNonNegative(items: seq<Item>)
    requires forall i :: 0 <= i < |items| ==> items[i].weight >= 0
    ensures WeightSum(items) >= 0
  {
    SumByMonotone(items, (it: Item) => 0, (it: Item) => it.weight);
    SumByZero(items, (it: Item) => 0);
  }

  // ---- The order of the rows -----------------------------------------------------------------------------

  lemma RowLeIsTotalOrder(u: nat, w: int)
    requires w > 0
    ensures TotalOrder((a: Row, b: Row) => RowLe(u, w, a, b))
  {
    StrLeIsTotalOrder();
  }

  lemma RowLeAntisymmetric(u: nat, w: int, a: Row, b: Row)
    requires w > 0 && RowLe(u, w, a, b) && RowLe(u, w, b, a)
    ensures a.pos == b.pos
  {
    StrLeIsTotalOrder();
  }

  lemma {:induction false} RowsOnce(items: seq<Item>, r: Row)
    ensures multiset(Rows(items))[r] <= 1
  {
    if items != [] {
      var n := |items| - 1;
      RowsOnce(items[..n], r);
      assert Rows(items) == Rows(items[..n]) + [Row(n, items[n])];
      assert Row(n, items[n]) !in Rows(items[..n]);
    }
  }

  lemma OnceMeansDistinct<T>(s: seq<T>, i: nat, j: nat)
    requires i < j < |s| && multiset(s)[s[j]] <= 1
    ensures s[i] != s[j]
  {
    var front, back := s[..j], s[j + 1..];
    var x := s[j];
    assert s == front + [x] + back;
    assert multiset(front + [x] + back)[x] >= multiset(front)[x] + 1;
    assert front[i] in multiset(front);
  }

  lemma {:induction false} CountPrefix<T>(s: seq<T>, k: nat, f: T -> int)
    requires k <= |s|
    requires forall i :: 0 <= i < |s| ==> f(s[i]) == if i < k then 1 else 0
    ensures SumBy(s, f) == k
  {
    if s != [] {
      var n := |s| - 1;
      CountPrefix(s[..n], if k <= n then k else n, f);
    }
  }

  lemma ByRemainderCorrect(u: nat, w: int, items: seq<Item>)
    requires w > 0
    ensures |ByRemainder(u, w, items)| == |items|
    ensures multiset(ByRemainder(u, w, items)) == multiset(Rows(items))
    ensures Sorted(ByRemainder(u, w, items), (a, b) => RowLe(u, w, a, b))
    ensures forall i, j :: 0 <= i < j < |items| ==> ByRemainder(u, w, items)[i].pos != ByRemainder(u, w, items)[j].pos
    ensures forall i :: 0 <= i < |items| ==>
      var r := ByRemainder(u, w, items)[i]; r.pos < |items| && r == Row(r.pos, items[r.pos])
  {
    var o := ByRemainder(u, w, items);
    RowLeIsTotalOrder(u, w);
    SortCorrect(Rows(items), (a, b) => RowLe(u, w, a, b));
    forall r ensures multiset(o)[r] <= 1 { RowsOnce(items, r); }
    forall i | 0 <= i < |items| ensures o[i].pos < |items| && o[i] == Row(o[i].pos, items[o[i].pos]) {
      assert o[i] in multiset(Rows(items));
    }
    forall i, j | 0 <= i < j < |items| ensures o[i].pos != o[j].pos {
      OnceMeansDistinct(o, i, j);
    }
  }

  lemma SortedBefore(u: nat, w: int, items: seq<Item>, i: nat, k: nat)
    requires w > 0 && i < |items| && k < |items|
    ensures |ByRemainder(u, w, items)| == |items|
    ensures var o := ByRemainder(u, w, items);
      o[i] != o[k] && RowLe(u, w, o[i], o[k]) <==> i < k
  {
    ByRemainderCorrect(u, w, items);
    hide RowLe, ByRemainder;
    var o := ByRemainder(u, w, items);
    if i > k && RowLe(u, w, o[i], o[k]) {
      RowLeAntisymmetric(u, w, o[i], o[k]);
    }
  }

  /** The row at position k of the sorted order is the row of rank k. */
  lemma RankIsPosition(u: nat, w: int, items: seq<Item>, k: nat)
    requires w > 0 && k < |items|
    ensures |ByRemainder(u, w, items)| == |items|
    ensures Rank(u, w, items, ByRemainder(u, w, items)[k]) == k
  {
    hide RowLe, ByRemainder;
    ByRemainderCorrect(u, w, items);
    var o := ByRemainder(u, w, items);
    var f := x => if x != o[k] && RowLe(u, w, x, o[k]) then 1 else 0;
    SumByPermutation(Rows(items), o, f);
    forall i | 0 <= i < |o| ensures f(o[i]) == if i < k then 1 else 0 {
      SortedBefore(u, w, items, i, k);
    }
    CountPrefix(o, k, f);
    assert Rank(u, w, items, o[k]) == SumBy(Rows(items), f) by {
      SumByCongruent(Rows(items), f, x => if x != o[k] && RowLe(u, w, x, o[k]) then 1 else 0);
    }
  }

  lemma PositionOf(u: nat, w: int, items: seq<Item>, i: nat) returns (k: nat)
    requires w > 0 && i < |items|
    ensures |ByRemainder(u, w, items)| == |items|
    ensures k < |items| && ByRemainder(u, w, items)[k] == Row(i, items[i])
    ensures Rank(u, w, items, Row(i, items[i])) == k
  {
    ByRemainderCorrect(u, w, items);
    var o := ByRemainder(u, w, items);
    assert Rows(items)[i] in multiset(o);
    k :| 0 <= k < |o| && o[k] == Row(i, items[i]);
    RankIsPosition(u, w, items, k);
  }

  // ---- What the leftover quanta can be -------------------------------------------------------------------

  lemma DivMod(n: int, d: int)
    requires d > 0
    ensures n == (n / d) * d + n % d && 0 <= n % d < d
  {
  }

  lemma {:induction false} FloorsAndRemainders(u: nat, w: int, items: seq<Item>)
    requires w > 0
    ensures u * WeightSum(items) == FloorSum(u, w, items) * w + SumBy(items, (it: Item) => Remainder(u, w, it))
  {
    if items != [] {
      var n := |items| - 1;
      FloorsAndRemainders(u, w, items[..n]);
      DivMod(u * items[n].weight, w);
      Distribute(u, WeightSum(items[..n]), items[n].weight);
      Distribute(w, FloorSum(u, w, items[..n]), Floor(u, w, items[n]));
    }
  }

  lemma Distribute(k: int, a: int, b: int)
    ensures k * (a + b) == k * a + k * b
  {
  }

  /** The remainders add up to exactly the leftover quanta. */
  lemma RemaindersMakeLeftover(u: nat, items: seq<Item>)
    requires Usable(items)
    ensures var w := WeightSum(items);
      Leftover(u, w, items) * w == SumBy(items, (it: Item) => Remainder(u, w, it))
  {
    var w := WeightSum(items);
    FloorsAndRemainders(u, w, items);
    Distribute(w, Leftover(u, w, items), FloorSum(u, w, items));
  }

  function NonzeroCount(u: nat, w: int, items: seq<Item>): int
    requires w > 0
  {
    SumBy(items, it => if Remainder(u, w, it) > 0 then 1 else 0)
  }

  lemma {:induction false} RemaindersBelow(u: nat, w: int, items: seq<Item>)
    requires w > 0
    ensures 0 <= SumBy(items, (it: Item) => Remainder(u, w, it)) <= NonzeroCount(u, w, items) * w
    ensures NonzeroCount(u, w, items) <= |items|
  {
    if items != [] {
      var n := |items| - 1;
      RemaindersBelow(u, w, items[..n]);
      Distribute(w, NonzeroCount(u, w, items[..n]), 1);
      RemainderBound(u, w, items[n]);
      hide Remainder;
    }
  }

  lemma RemainderBound(u: nat, w: int, it: Item)
    requires w > 0
    ensures 0 <= Remainder(u, w, it) < w
  {
  }

  lemma CompareMultiples(a: int, b: int, w: int)
    requires w > 0 && a * w <= b * w
    ensures a <= b
  {
    assert a > b ==> (a - b) * w > 0;
  }

  /** No more rows get a leftover quantum than have a nonzero remainder. */
  lemma LeftoverBounds(u: nat, items: seq<Item>)
    requires Usable(items)
    ensures var w := WeightSum(items);
      0 <= Leftover(u, w, items) <= NonzeroCount(u, w, items) <= |items|
  {
    var w := WeightSum(items);
    RemaindersMakeLeftover(u, items);
    RemaindersBelow(u, w, items);
    CompareMultiples(0, Leftover(u, w, items), w);
    CompareMultiples(Leftover(u, w, items), NonzeroCount(u, w, items), w);
  }

  lemma {:induction false} SumByRows(items: seq<Item>, f: Item -> int)
    ensures SumBy(Rows(items), (r: Row) => f(r.item)) == SumBy(items, f)
  {
    if items != [] {
      var n := |items| - 1;
      SumByRows(items[..n], f);
      assert Rows(items)[..n] == Rows(items[..n]);
    }
  }

  /** A row whose exact share is a whole number of quanta never gets an extra one. */
  lemma ExactRowGetsNoExtra(u: nat, items: seq<Item>, i: nat)
    requires Usable(items) && i < |items|
    requires Remainder(u, WeightSum(items), items[i]) == 0
    ensures Rank(u, WeightSum(items), items, Row(i, items[i])) >= Leftover(u, WeightSum(items), items)
  {
    var w := WeightSum(items);
    var r := Row(i, items[i]);
    var before := x => if x != r && RowLe(u, w, x, r) then 1 else 0;
    var nonzero := (it: Item) => if Remainder(u, w, it) > 0 then 1 else 0;
    LeftoverBounds(u, items);
    SumByRows(items, nonzero);
    SumByMonotone(Rows(items), (x: Row) => nonzero(x.item), before);
  }

  /** Exactly `Leftover` rows get an extra quantum. */
  lemma ExtrasAddUp(u: nat, items: seq<Item>)
    requires Usable(items)
    ensures var w := WeightSum(items);
      SumBy(Rows(items), (r: Row) => if Rank(u, w, items, r) < Leftover(u, w, items) then 1 else 0)
      == Leftover(u, w, items)
  {
    var w := WeightSum(items);
    var l := Leftover(u, w, items);
    var extra := (r: Row) => if Rank(u, w, items, r) < l then 1 else 0;
    var o := ByRemainder(u, w, items);
    LeftoverBounds(u, items);
    ByRemainderCorrect(u, w, items);
    SumByPermutation(Rows(items), o, extra);
    forall k | 0 <= k < |o| ensures extra(o[k]) == if k < l then 1 else 0 {
      RankIsPosition(u, w, items, k);
    }
    CountPrefix(o, l, extra);
  }

  // ---- The theorems --------------------------------------------------------------------------------------

  function Deviation(share: int, exact: int, w: int): nat { Abs(share * w - exact) }

  /** Numerator of the exact share of `total`, over the weight sum. */
  function Exact(total: int, it: Item): int { total * it.weight }

  predicate Succeeds(total: int, items: seq<Item>, quantum: int) {
    quantum > 0 && Usable(items) && Abs(total) % quantum == 0
  }

  /** `allocate` succeeds on exactly the requests it can serve. */
  lemma SucceedsIff(total: int, items: seq<Item>, quantum: int)
    requires quantum > 0
    ensures Allocated(total, items, quantum).Ok? <==> Succeeds(total, items, quantum)
  {
    if forall i :: 0 <= i < |items| ==> items[i].weight >= 0 {
      WeightSumNonNegative(items);
    }
  }

  lemma {:induction false} UnitsSum(u: nat, items: seq<Item>)
    requires Usable(items)
    ensures SumBy(Range(|items|), (i: int) => if 0 <= i < |items| then Units(u, items, i) else 0) == u
  {
    var w := WeightSum(items);
    var l := Leftover(u, w, items);
    var extra := (r: Row) => if Rank(u, w, items, r) < l then 1 else 0;
    var floor := (it: Item) => Floor(u, w, it);
    var units := (i: int) => if 0 <= i < |items| then Units(u, items, i) else 0;
    ExtrasAddUp(u, items);
    SumByRows(items, floor);
    SumByAdds(Rows(items), (r: Row) => floor(r.item), extra, (r: Row) => floor(r.item) + extra(r));
    IndexSum(Rows(items), (r: Row) => floor(r.item) + extra(r), units);
  }

  lemma {:induction false} IndexSum<T>(s: seq<T>, f: T -> int, g: int -> int)
    requires forall i :: 0 <= i < |s| ==> g(i) == f(s[i])
    ensures SumBy(Range(|s|), g) == SumBy(s, f)
  {
    if s != [] {
      var n := |s| - 1;
      IndexSum(s[..n], f, g);
      assert Range(n) + [n] == Range(|s|);
      SumByAppend(Range(n), n, g);
      assert g(n) == f(s[n]);
    }
  }

  /** Exact: the shares sum to the total. */
  lemma SharesSumToTotal(total: int, items: seq<Item>, quantum: int)
    requires Succeeds(total, items, quantum)
    ensures Allocated(total, items, quantum).Ok?
    ensures Sum(Allocated(total, items, quantum).value) == total
  {
    SucceedsIff(total, items, quantum);
    var u := Abs(total) / quantum;
    var k := SignedQuantum(total, quantum);
    var units := (i: int) => if 0 <= i < |items| then Units(u, items, i) else 0;
    UnitsSum(u, items);
    SumByScales(Range(|items|), k, units, (i: int) => k * units(i));
    SumOfSeq(Allocated(total, items, quantum).value, (i: int) => k * units(i));
    WholeTotal(total, quantum);
  }

  /** Every share is a whole number of quanta. */
  lemma SharesAreWhole(total: int, items: seq<Item>, quantum: int, i: nat)
    requires Succeeds(total, items, quantum) && i < |items|
    ensures Allocated(total, items, quantum).Ok?
    ensures Allocated(total, items, quantum).value[i] % quantum == 0
  {
    SucceedsIff(total, items, quantum);
    var share := Allocated(total, items, quantum).value[i];
    var units := Units(Abs(total) / quantum, items, i);
    MultipleHasNoRemainder(share, if total < 0 then -units else units, quantum);
  }

  lemma WholeTotal(total: int, quantum: int)
    requires quantum > 0 && Abs(total) % quantum == 0
    ensures SignedQuantum(total, quantum) * (Abs(total) / quantum) == total
  {
    DivMod(Abs(total), quantum);
  }

  lemma {:induction false} SumOfSeq(s: seq<int>, g: int -> int)
    requires forall i :: 0 <= i < |s| ==> g(i) == s[i]
    ensures Sum(s) == SumBy(Range(|s|), g)
  {
    if s != [] {
      var n := |s| - 1;
      SumOfSeq(s[..n], g);
      assert Range(n) + [n] == Range(|s|);
      SumByAppend(Range(n), n, g);
      assert g(n) == s[n];
    }
  }

  /** In units: a share is its floor or one more, and exactly its floor when the floor is exact. */
  lemma UnitsNearExact(u: nat, items: seq<Item>, i: nat)
    requires Usable(items) && i < |items|
    ensures var w := WeightSum(items);
      var it := items[i];
      var r := Remainder(u, w, it);
      var s := Units(u, items, i);
      && u * it.weight == Floor(u, w, it) * w + r
      && 0 <= Floor(u, w, it) <= s <= Floor(u, w, it) + 1
      && (r == 0 ==> s == Floor(u, w, it))
      && Deviation(s, u * it.weight, w) < w
  {
    var w := WeightSum(items);
    var f := Floor(u, w, items[i]);
    DivMod(u * items[i].weight, w);
    assert u * items[i].weight >= 0;
    FloorNonNegative(u * items[i].weight, w);
    if Remainder(u, w, items[i]) == 0 {
      ExactRowGetsNoExtra(u, items, i);
    }
    Distribute(w, f, 1);
  }

  lemma FloorNonNegative(n: nat, d: int)
    requires d > 0
    ensures n / d >= 0
  {
  }

  /** Fair: each share is within one quantum of its exact value. */
  lemma WithinOneQuantum(total: int, items: seq<Item>, quantum: int, i: nat)
    requires Succeeds(total, items, quantum) && i < |items|
    ensures Allocated(total, items, quantum).Ok?
    ensures var w := WeightSum(items);
      Deviation(Allocated(total, items, quantum).value[i], Exact(total, items[i]), w) < quantum * w
  {
    SucceedsIff(total, items, quantum);
    var u := Abs(total) / quantum;
    UnitsNearExact(u, items, i);
    WholeTotal(total, quantum);
    ScaledDeviation(SignedQuantum(total, quantum), Units(u, items, i), WeightSum(items), u, items[i].weight);
    StrictlyScaled(quantum, Deviation(Units(u, items, i), u * items[i].weight, WeightSum(items)), WeightSum(items));
  }

  lemma ScaledDeviation(k: int, n: int, w: int, u: int, x: int)
    ensures Deviation(k * n, (k * u) * x, w) == Abs(k) * Deviation(n, u * x, w)
  {
    Regroup(k, n, w, u, x);
    AbsScale(k, n * w - u * x);
  }

  /** A share whose exact value is a whole number of quanta is that value. */
  lemma WholeShareIsExact(total: int, items: seq<Item>, quantum: int, i: nat)
    requires Succeeds(total, items, quantum) && i < |items| && quantum * WeightSum(items) > 0
    requires Exact(total, items[i]) % (quantum * WeightSum(items)) == 0
    ensures Allocated(total, items, quantum).Ok?
    ensures Allocated(total, items, quantum).value[i] * WeightSum(items) == Exact(total, items[i])
  {
    SucceedsIff(total, items, quantum);
    var u := Abs(total) / quantum;
    WholeTotal(total, quantum);
    WholeQuantum(SignedQuantum(total, quantum), u, items[i].weight, WeightSum(items));
    UnitsNearExact(u, items, i);
    Regroup(SignedQuantum(total, quantum), Units(u, items, i), WeightSum(items), u, items[i].weight);
  }

  /** No share goes against the sign of the total. */
  lemma SharesKeepSign(total: int, items: seq<Item>, quantum: int, i: nat)
    requires Succeeds(total, items, quantum) && i < |items|
    ensures Allocated(total, items, quantum).Ok?
    ensures total >= 0 ==> Allocated(total, items, quantum).value[i] >= 0
    ensures total <= 0 ==> Allocated(total, items, quantum).value[i] <= 0
  {
    SucceedsIff(total, items, quantum);
    UnitsNearExact(Abs(total) / quantum, items, i);
    SignOfProduct(SignedQuantum(total, quantum), Units(Abs(total) / quantum, items, i));
    if total == 0 {
      LeftoverOfNothing(items);
    }
  }

  lemma SignOfProduct(k: int, n: nat)
    ensures k >= 0 ==> k * n >= 0
    ensures k <= 0 ==> k * n <= 0
  {
  }

  lemma Regroup(k: int, n: int, w: int, u: int, x: int)
    ensures (k * n) * w - (k * u) * x == k * (n * w - u * x)
  {
    assert (k * n) * w == k * (n * w);
    assert (k * u) * x == k * (u * x);
    Distribute(k, n * w, -(u * x));
    assert k * -(u * x) == -(k * (u * x));
  }

  lemma AbsScale(k: int, x: int)
    ensures Abs(k * x) == Abs(k) * Abs(x)
  {
  }

  lemma StrictlyScaled(k: int, a: int, b: int)
    requires k > 0 && a < b
    ensures k * a < k * b
  {
  }

  lemma WholeQuantum(k: int, u: int, x: int, w: int)
    requires k != 0 && w > 0 && ((k * u) * x) % (Abs(k) * w) == 0
    ensures (u * x) % w == 0
  {
    var q := Abs(k) * w;
    StrictlyScaled(w, 0, Abs(k));
    DivMod((k * u) * x, q);
    var m := ((k * u) * x) / q;
    var s := if k < 0 then -m else m;
    assert (k * u) * x == k * (u * x);
    assert m * (Abs(k) * w) == k * (s * w);
    assert k * (u * x - s * w) == 0;
    MultipleHasNoRemainder(u * x, s, w);
  }

  lemma MultipleHasNoRemainder(n: int, m: int, w: int)
    requires w > 0 && n == m * w
    ensures n % w == 0
  {
    DivMod(n, w);
    var d := m - n / w;
    assert d * w == n % w;
    assert d >= 1 ==> d * w >= w;
    assert d <= -1 ==> d * w <= -w;
  }

  /** Monotone: a strictly larger weight never gets a smaller share in magnitude. */
  lemma LargerWeightLargerShare(total: int, items: seq<Item>, quantum: int, i: nat, j: nat)
    requires Succeeds(total, items, quantum) && i < |items| && j < |items|
    requires items[i].weight > items[j].weight
    ensures Allocated(total, items, quantum).Ok?
    ensures Abs(Allocated(total, items, quantum).value[i]) >= Abs(Allocated(total, items, quantum).value[j])
  {
    SucceedsIff(total, items, quantum);
    var u := Abs(total) / quantum;
    UnitsMonotone(u, items, i, j);
    UnitsNearExact(u, items, j);
    ScaledOrder(SignedQuantum(total, quantum), Units(u, items, j), Units(u, items, i));
  }

  lemma ScaledOrder(k: int, a: nat, b: nat)
    requires a <= b
    ensures Abs(k * a) <= Abs(k * b)
  {
    AbsScale(k, a);
    AbsScale(k, b);
    assert Abs(k) * (b - a) >= 0;
    Distribute(Abs(k), a, b - a);
  }

  lemma UnitsMonotone(u: nat, items: seq<Item>, i: nat, j: nat)
    requires Usable(items) && i < |items| && j < |items| && items[i].weight > items[j].weight
    ensures Units(u, items, i) >= Units(u, items, j)
  {
    var w := WeightSum(items);
    UnitsNearExact(u, items, i);
    UnitsNearExact(u, items, j);
    if u == 0 {
      LeftoverOfNothing(items);
    } else if Floor(u, w, items[i]) <= Floor(u, w, items[j]) {
      StrictlyScaled(u, items[j].weight, items[i].weight);
      FloorOrder(u, w, items[i], items[j]);
      EarlierRowSmallerRank(u, w, items, i, j);
    }
  }

  lemma FloorOrder(u: nat, w: int, a: Item, b: Item)
    requires w > 0 && u * a.weight >= u * b.weight && Floor(u, w, a) <= Floor(u, w, b)
    ensures Floor(u, w, a) == Floor(u, w, b)
    ensures Remainder(u, w, a) - Remainder(u, w, b) == u * a.weight - u * b.weight
  {
    DivMod(u * a.weight, w);
    DivMod(u * b.weight, w);
    var d := Floor(u, w, b) - Floor(u, w, a);
    Distribute(w, Floor(u, w, b), -Floor(u, w, a));
    assert d >= 1 ==> d * w >= w;
  }

  lemma LeftoverOfNothing(items: seq<Item>)
    requires Usable(items)
    ensures Leftover(0, WeightSum(items), items) == 0
    ensures forall i :: 0 <= i < |items| ==> Units(0, items, i) == 0
  {
    var w := WeightSum(items);
    forall it: Item ensures Floor(0, w, it) == 0 && Remainder(0, w, it) == 0 {
      assert 0 * it.weight == 0;
    }
    SumByZero(items, it => Floor(0, w, it));
    forall i | 0 <= i < |items| ensures Units(0, items, i) == 0 {
      ExactRowGetsNoExtra(0, items, i);
    }
  }

  lemma RowLeTransitive(u: nat, w: int, a: Row, b: Row, c: Row)
    requires w > 0 && RowLe(u, w, a, b) && RowLe(u, w, b, c) && a != b && (b.pos == c.pos ==> b == c)
    ensures a != c && RowLe(u, w, a, c)
  {
    RowLeIsTotalOrder(u, w);
    var le := (a: Row, b: Row) => RowLe(u, w, a, b);
    assert le(a, b) && le(b, c);
    if a == c {
      RowLeAntisymmetric(u, w, a, b);
    }
  }

  lemma EarlierRowSmallerRank(u: nat, w: int, items: seq<Item>, i: nat, j: nat)
    requires w > 0 && i < |items| && j < |items|
    requires RowLe(u, w, Row(i, items[i]), Row(j, items[j]))
    ensures Rank(u, w, items, Row(i, items[i])) <= Rank(u, w, items, Row(j, items[j]))
  {
    var ri, rj := Row(i, items[i]), Row(j, items[j]);
    forall x | x != ri && RowLe(u, w, x, ri) ensures x != rj && RowLe(u, w, x, rj) {
      RowLeTransitive(u, w, x, ri, rj);
    }
    SumByMonotone(Rows(items), x => if x != ri && RowLe(u, w, x, ri) then 1 else 0,
                  x => if x != rj && RowLe(u, w, x, rj) then 1 else 0);
  }

  // ---- Optimality ----------------------------------------------------------------------------------------

  function DeviationAt(split: seq<int>, total: int, items: seq<Item>, i: int): int
    requires |split| == |items|
  {
    if 0 <= i < |items| then Deviation(split[i], Exact(total, items[i]), WeightSum(items)) else 0
  }

  /** How far a split is from the exact pro-rata values, in total, over the weight sum. */
  function TotalDeviation(split: seq<int>, total: int, items: seq<Item>): int
    requires |split| == |items|
  {
    SumBy(Range(|items|), i => DeviationAt(split, total, items, i))
  }

  /** The price of a unit: rows that got an extra unit value it at no less, the others at no more. */
  ghost predicate Price(u: nat, items: seq<Item>, price: int)
    requires Usable(items)
  {
    var w := WeightSum(items);
    -w <= price <= w &&
    forall i :: 0 <= i < |items| ==>
      var marginal := w - 2 * Remainder(u, w, items[i]);
      if Units(u, items, i) == Floor(u, w, items[i]) then price <= marginal else marginal <= price
  }

  lemma PriceExists(u: nat, items: seq<Item>) returns (price: int)
    requires Usable(items)
    ensures Price(u, items, price)
  {
    var w := WeightSum(items);
    var l := Leftover(u, w, items);
    LeftoverBounds(u, items);
    ByRemainderCorrect(u, w, items);
    var o := ByRemainder(u, w, items);
    price := if l == 0 then -w else w - 2 * Remainder(u, w, o[l - 1].item);
    if l > 0 {
      DivMod(u * o[l - 1].item.weight, w);
    }
    forall i | 0 <= i < |items|
      ensures var marginal := w - 2 * Remainder(u, w, items[i]);
        if Units(u, items, i) == Floor(u, w, items[i]) then price <= marginal else marginal <= price
    {
      var k := PositionOf(u, w, items, i);
      DivMod(u * items[i].weight, w);
      if l > 0 {
        RemaindersFall(u, w, items, l - 1, k);
      }
    }
  }

  lemma RemaindersFall(u: nat, w: int, items: seq<Item>, a: nat, b: nat)
    requires w > 0 && a < |items| && b < |items|
    ensures |ByRemainder(u, w, items)| == |items|
    ensures var o := ByRemainder(u, w, items);
      && (a <= b ==> Remainder(u, w, o[a].item) >= Remainder(u, w, o[b].item))
      && (b <= a ==> Remainder(u, w, o[b].item) >= Remainder(u, w, o[a].item))
  {
    ByRemainderCorrect(u, w, items);
  }

  lemma DeviationFromFloor(w: int, f: int, r: int, t: int)
    ensures Deviation(t, f * w + r, w) == Abs((t - f) * w - r)
  {
  }

  lemma CostFromFloor(w: int, r: int, d: int, price: int)
    requires 0 <= r < w && -w <= price <= w - 2 * r
    ensures Abs(d * w - r) - r >= price * d
  {
    if d > 0 {
      MulLe(price, w - 2 * r, d);
      MulLe(1, d, 2 * r);
      MulLe(1, d, w);
      assert (w - 2 * r) * d == w * d - 2 * r * d;
    } else {
      MulLe(-price, w, -d);
      assert -d * w >= 0;
    }
  }

  lemma CostFromCeiling(w: int, r: int, d: int, price: int)
    requires 0 <= r < w && w - 2 * r <= price <= w
    ensures Abs(d * w + (w - r)) - (w - r) >= price * d
  {
    if d >= 0 {
      MulLe(price, w, d);
    } else {
      MulLe(-price, 2 * r - w, -d);
      MulLe(1, -d, 2 * w - 2 * r);
      MulLe(1, -d, w);
      assert (2 * r - w) * -d == w * -d - (2 * w - 2 * r) * -d;
    }
  }

  /** Convexity: moving one row by d units changes its deviation by at least price * d. */
  lemma MoveCosts(w: int, f: int, r: int, s: int, t: int, price: int)
    requires w > 0 && 0 <= r < w && -w <= price <= w
    requires (s == f && price <= w - 2 * r) || (s == f + 1 && w - 2 * r <= price)
    ensures Deviation(t, f * w + r, w) - Deviation(s, f * w + r, w) >= price * (t - s)
  {
    DeviationFromFloor(w, f, r, t);
    DeviationFromFloor(w, f, r, s);
    if s == f {
      CostFromFloor(w, r, t - s, price);
    } else {
      Distribute(w, t - s, 1);
      CostFromCeiling(w, r, t - s, price);
    }
  }

  lemma MulLe(a: int, b: int, c: int)
    requires a <= b && c >= 0
    ensures a * c <= b * c
  {
  }

  lemma UnitsOptimalAt(u: nat, items: seq<Item>, price: int, i: nat, t: int)
    requires Usable(items) && Price(u, items, price) && i < |items|
    ensures var w := WeightSum(items);
      Deviation(t, u * items[i].weight, w) - Deviation(Units(u, items, i), u * items[i].weight, w)
        >= price * (t - Units(u, items, i))
  {
    var w := WeightSum(items);
    UnitsNearExact(u, items, i);
    DivMod(u * items[i].weight, w);
    MoveCosts(w, Floor(u, w, items[i]), Remainder(u, w, items[i]), Units(u, items, i), t, price);
  }

  lemma ShareOptimalAt(total: int, items: seq<Item>, quantum: int, price: int, i: nat, other: int)
    requires Succeeds(total, items, quantum) && Price(Abs(total) / quantum, items, price)
    requires i < |items| && other % quantum == 0
    ensures Allocated(total, items, quantum).Ok?
    ensures var w := WeightSum(items);
      var share := Allocated(total, items, quantum).value[i];
      var k := if total < 0 then -price else price;
      Deviation(share, Exact(total, items[i]), w) + k * (other - share) <= Deviation(other, Exact(total, items[i]), w)
  {
    SucceedsIff(total, items, quantum);
    var u := Abs(total) / quantum;
    var q := SignedQuantum(total, quantum);
    var s := Units(u, items, i);
    DivMod(other, quantum);
    var t := if total < 0 then -(other / quantum) else other / quantum;
    assert other == q * t;
    WholeTotal(total, quantum);
    var w := WeightSum(items);
    ScaledDeviation(q, s, w, u, items[i].weight);
    ScaledDeviation(q, t, w, u, items[i].weight);
    UnitsOptimalAt(u, items, price, i, t);
    ScaledGap(q, price, t, s, Deviation(t, u * items[i].weight, w), Deviation(s, u * items[i].weight, w));
  }

  lemma ScaledGap(q: int, price: int, t: int, s: int, dt: int, ds: int)
    requires dt - ds >= price * (t - s)
    ensures Abs(q) * ds + (if q < 0 then -price else price) * (q * t - q * s) <= Abs(q) * dt
  {
    var a := Abs(q);
    MulLe(price * (t - s), dt - ds, a);
    Distribute(a, dt, -ds);
    assert a * -ds == -(a * ds);
    Distribute(q, t, -s);
    assert q * -s == -(q * s);
    assert (if q < 0 then -price else price) * (q * (t - s)) == (price * (t - s)) * a;
  }

  lemma NoBetterAt(total: int, items: seq<Item>, quantum: int, price: int, i: nat, other: seq<int>)
    requires Succeeds(total, items, quantum) && Price(Abs(total) / quantum, items, price)
    requires i < |items| && |other| == |items| && other[i] % quantum == 0
    ensures Allocated(total, items, quantum).Ok?
    ensures var shares := Allocated(total, items, quantum).value;
      DeviationAt(shares, total, items, i) + (if total < 0 then -price else price) * (other[i] - shares[i])
      <= DeviationAt(other, total, items, i)
  {
    hide Allocated, Deviation, Exact, Price;
    ShareOptimalAt(total, items, quantum, price, i, other[i]);
  }

  /**
   * Optimal: no other split of the total into whole quanta is closer to the exact pro-rata values, measured by
   * the sum of absolute deviations.
   */
  lemma LargestRemainderIsOptimal(total: int, items: seq<Item>, quantum: int, other: seq<int>)
    requires Succeeds(total, items, quantum)
    requires |other| == |items| && Sum(other) == total
    requires forall i :: 0 <= i < |other| ==> other[i] % quantum == 0
    ensures Allocated(total, items, quantum).Ok?
    ensures TotalDeviation(Allocated(total, items, quantum).value, total, items) <= TotalDeviation(other, total, items)
  {
    hide Allocated, DeviationAt, Deviation, Price;
    SharesSumToTotal(total, items, quantum);
    var shares := Allocated(total, items, quantum).value;
    var price := PriceExists(Abs(total) / quantum, items);
    var k := if total < 0 then -price else price;
    var move := (i: int) => if 0 <= i < |shares| then other[i] - shares[i] else 0;
    forall i | 0 <= i < |items|
      ensures DeviationAt(shares, total, items, i) + k * move(i) <= DeviationAt(other, total, items, i)
    {
      NoBetterAt(total, items, quantum, price, i, other);
    }
    MovesCancel(shares, other);
    NoGainFromMoves(|items|, i => DeviationAt(shares, total, items, i), i => DeviationAt(other, total, items, i),
                    move, k);
  }

  lemma NoGainFromMoves(n: nat, dev: int -> int, devOther: int -> int, move: int -> int, k: int)
    requires forall i :: 0 <= i < n ==> dev(i) + k * move(i) <= devOther(i)
    requires SumBy(Range(n), move) == 0
    ensures SumBy(Range(n), dev) <= SumBy(Range(n), devOther)
  {
    var scaled, moved := i => k * move(i), i => dev(i) + k * move(i);
    SumByScales(Range(n), k, move, scaled);
    SumByAdds(Range(n), dev, scaled, moved);
    SumByMonotone(Range(n), moved, devOther);
  }

  lemma MovesCancel(a: seq<int>, b: seq<int>)
    requires |a| == |b| && Sum(a) == Sum(b)
    ensures SumBy(Range(|a|), (i: int) => if 0 <= i < |a| then b[i] - a[i] else 0) == 0
  {
    var f, g := (i: int) => if 0 <= i < |a| then a[i] else 0, (i: int) => if 0 <= i < |a| then b[i] else 0;
    var move := (i: int) => if 0 <= i < |a| then b[i] - a[i] else 0;
    SumOfSeq(a, f);
    SumOfSeq(b, g);
    SumByAdds(Range(|a|), f, move, g);
  }

  // ---- Symmetries ----------------------------------------------------------------------------------------

  /** Item i comes before item j: a larger remainder first, then the smaller text, then the earlier key. */
  predicate ComesBefore(u: nat, w: int, items: seq<Item>, i: nat, j: nat)
    requires w > 0 && i < |items| && j < |items|
  {
    var ri, rj := u * items[i].weight % w, u * items[j].weight % w;
    var a, b := items[i].text, items[j].text;
    ri > rj || (ri == rj && (if a == b then i < j else StrLe(a, b)))
  }

  /**
   * Who gets the leftover quanta: if a key gets more than its floor, so does every key with a larger remainder, or
   * with the same remainder and a smaller text.
   */
  lemma LeftoverGoesInOrder(total: int, items: seq<Item>, quantum: int, i: nat, j: nat)
    requires Succeeds(total, items, quantum) && i < |items| && j < |items|
    requires ComesBefore(Abs(total) / quantum, WeightSum(items), items, i, j)
    ensures Allocated(total, items, quantum).Ok?
    ensures var u, w, shares := Abs(total) / quantum, WeightSum(items), Allocated(total, items, quantum).value;
      Abs(shares[j]) > quantum * (u * items[j].weight / w) ==> Abs(shares[i]) > quantum * (u * items[i].weight / w)
  {
    SucceedsIff(total, items, quantum);
    var u, w := Abs(total) / quantum, WeightSum(items);
    StrLeIsTotalOrder();
    EarlierRowSmallerRank(u, w, items, i, j);
    hide RowLe, Rank;
    UnitsNearExact(u, items, i);
    UnitsNearExact(u, items, j);
    MagnitudeOf(total, items, quantum, i);
    MagnitudeOf(total, items, quantum, j);
    ScaledGreater(quantum, Units(u, items, i), Floor(u, w, items[i]));
    ScaledGreater(quantum, Units(u, items, j), Floor(u, w, items[j]));
  }

  lemma ScaledGreater(k: int, a: int, b: int)
    requires k > 0
    ensures k * a > k * b <==> a > b
  {
    if a <= b {
      assert k * (b - a) >= 0;
    } else {
      assert k * (a - b) > 0;
    }
  }

  lemma MagnitudeOf(total: int, items: seq<Item>, quantum: int, i: nat)
    requires Succeeds(total, items, quantum) && i < |items|
    ensures Allocated(total, items, quantum).Ok?
    ensures Units(Abs(total) / quantum, items, i) >= 0
    ensures Abs(Allocated(total, items, quantum).value[i]) == quantum * Units(Abs(total) / quantum, items, i)
  {
    hide Units;
    SucceedsIff(total, items, quantum);
    UnitsNearExact(Abs(total) / quantum, items, i);
  }

  /** Of two equal weights, the smaller text never gets less. */
  lemma EqualWeightsSmallerText(total: int, items: seq<Item>, quantum: int, i: nat, j: nat)
    requires Succeeds(total, items, quantum) && i < |items| && j < |items|
    requires items[i].weight == items[j].weight && items[i].text != items[j].text && StrLe(items[i].text, items[j].text)
    ensures Allocated(total, items, quantum).Ok?
    ensures Abs(Allocated(total, items, quantum).value[i]) >= Abs(Allocated(total, items, quantum).value[j])
  {
    hide Rank, RowLe;
    var u, w := Abs(total) / quantum, WeightSum(items);
    LeftoverGoesInOrder(total, items, quantum, i, j);
    MagnitudeOf(total, items, quantum, i);
    MagnitudeOf(total, items, quantum, j);
    ScaledGreater(quantum, Units(u, items, i), Floor(u, w, items[i]));
    ScaledGreater(quantum, Units(u, items, j), Floor(u, w, items[j]));
    ScaledGreater(quantum, Units(u, items, j), Units(u, items, i));
  }

  /** Negating the total negates every share. */
  lemma NegatedTotal(total: int, items: seq<Item>, quantum: int)
    requires quantum > 0
    ensures var r, n := Allocated(total, items, quantum), Allocated(-total, items, quantum);
      if r.Err? then n == r
      else n.Ok? && forall i :: 0 <= i < |items| ==> n.value[i] == -r.value[i]
  {
    var r, n := Allocated(total, items, quantum), Allocated(-total, items, quantum);
    if r.Ok? {
      WeightSumNonNegative(items);
      var u := Abs(total) / quantum;
      assert Abs(-total) == Abs(total);
      forall i | 0 <= i < |items| ensures n.value[i] == -r.value[i] {
        if total == 0 {
          LeftoverOfNothing(items);
        }
        assert (-quantum) * Units(u, items, i) == -(quantum * Units(u, items, i));
      }
    }
  }

  ghost predicate DistinctLabels(items: seq<Item>) {
    forall i, j :: 0 <= i < j < |items| ==> items[i].text != items[j].text
  }

  lemma RowLeIsPrecedes(u: nat, w: int, items: seq<Item>, k: nat, i: nat)
    requires w > 0 && k < |items| && i < |items| && DistinctLabels(items)
    ensures Precedes(u, w, items[k], items[i]) <==>
      Row(k, items[k]) != Row(i, items[i]) && RowLe(u, w, Row(k, items[k]), Row(i, items[i]))
  {
    StrLeIsTotalOrder();
  }

  /** With distinct labels, a row's rank is the number of items that precede it, wherever the rows stand. */
  lemma RankByItems(u: nat, w: int, items: seq<Item>, i: nat)
    requires w > 0 && i < |items| && DistinctLabels(items)
    ensures Rank(u, w, items, Row(i, items[i])) == SumBy(items, it => if Precedes(u, w, it, items[i]) then 1 else 0)
  {
    var r := Row(i, items[i]);
    var f := it => if Precedes(u, w, it, items[i]) then 1 else 0;
    SumByRows(items, f);
    forall k | 0 <= k < |items|
      ensures f(items[k]) == if Row(k, items[k]) != r && RowLe(u, w, Row(k, items[k]), r) then 1 else 0
    {
      RowLeIsPrecedes(u, w, items, k, i);
    }
    hide Precedes, RowLe;
    SumByCongruent(Rows(items), (x: Row) => f(x.item), x => if x != r && RowLe(u, w, x, r) then 1 else 0);
  }

  /** Canonical: with distinct labels, the share of a key does not depend on the mapping's order. */
  lemma OrderDoesNotMatter(total: int, a: seq<Item>, b: seq<Item>, quantum: int, i: nat, j: nat)
    requires quantum > 0 && multiset(a) == multiset(b) && DistinctLabels(a) && DistinctLabels(b)
    requires i < |a| && j < |b| && a[i] == b[j]
    ensures var ra, rb := Allocated(total, a, quantum), Allocated(total, b, quantum);
      if ra.Err? then rb == ra else rb.Ok? && ra.value[i] == rb.value[j]
  {
    SumByPermutation(a, b, (it: Item) => it.weight);
    NegativeInBoth(a, b);
    var ra := Allocated(total, a, quantum);
    if ra.Ok? {
      SucceedsIff(total, a, quantum);
      SucceedsIff(total, b, quantum);
      UnitsCanonical(Abs(total) / quantum, a, b, i, j);
    }
  }

  lemma NegativeInBoth(a: seq<Item>, b: seq<Item>)
    requires multiset(a) == multiset(b)
    ensures (exists i :: 0 <= i < |a| && a[i].weight < 0) <==> (exists i :: 0 <= i < |b| && b[i].weight < 0)
    ensures a == [] <==> b == []
  {
    assert |multiset(a)| == |a| && |multiset(b)| == |b|;
    forall i | 0 <= i < |a| ensures a[i] in b { assert a[i] in multiset(b); }
    forall i | 0 <= i < |b| ensures b[i] in a { assert b[i] in multiset(a); }
  }

  lemma UnitsCanonical(u: nat, a: seq<Item>, b: seq<Item>, i: nat, j: nat)
    requires Usable(a) && Usable(b) && multiset(a) == multiset(b) && DistinctLabels(a) && DistinctLabels(b)
    requires i < |a| && j < |b| && a[i] == b[j]
    ensures Units(u, a, i) == Units(u, b, j)
  {
    SumByPermutation(a, b, (it: Item) => it.weight);
    var w := WeightSum(a);
    SumByPermutation(a, b, it => Floor(u, w, it));
    SumByPermutation(a, b, it => if Precedes(u, w, it, a[i]) then 1 else 0);
    RankByItems(u, w, a, i);
    RankByItems(u, w, b, j);
  }

  // ---- The source's loops --------------------------------------------------------------------------------

  lemma OnlyRowOfRank(u: nat, w: int, items: seq<Item>, n: nat)
    requires w > 0 && n < |items|
    ensures |ByRemainder(u, w, items)| == |items| && ByRemainder(u, w, items)[n].pos < |items|
    ensures forall i :: 0 <= i < |items| ==>
      (Rank(u, w, items, Row(i, items[i])) == n <==> i == ByRemainder(u, w, items)[n].pos)
  {
    ByRemainderCorrect(u, w, items);
    RankIsPosition(u, w, items, n);
    forall i | 0 <= i < |items| && Rank(u, w, items, Row(i, items[i])) == n
      ensures i == ByRemainder(u, w, items)[n].pos
    {
      var k := PositionOf(u, w, items, i);
    }
  }

  lemma RanksNonNegative(u: nat, w: int, items: seq<Item>)
    requires w > 0
    ensures forall i :: 0 <= i < |items| ==> Rank(u, w, items, Row(i, items[i])) >= 0
  {
    forall i | 0 <= i < |items| ensures Rank(u, w, items, Row(i, items[i])) >= 0 {
      var k := PositionOf(u, w, items, i);
    }
  }

  /** Floors first, then one more quantum for each of the leading rows by remainder. */
  method SplitUnits(u: nat, items: seq<Item>) returns (floors: seq<int>)
    requires Usable(items)
    ensures |floors| == |items| && forall i :: 0 <= i < |items| ==> floors[i] == Units(u, items, i)
  {
    var w := WeightSum(items);
    floors := seq(|items|, i requires 0 <= i < |items| => Floor(u, w, items[i]));
    var leftover := Leftover(u, w, items);
    var byRemainder := ByRemainder(u, w, items);
    LeftoverBounds(u, items);
    RanksNonNegative(u, w, items);
    for n := 0 to leftover
      invariant |floors| == |items|
      invariant forall i :: 0 <= i < |items| ==>
        floors[i] == Floor(u, w, items[i]) + if Rank(u, w, items, Row(i, items[i])) < n then 1 else 0
    {
      OnlyRowOfRank(u, w, items, n);
      var pos := byRemainder[n].pos;
      floors := floors[pos := floors[pos] + 1];
    }
  }

  /** `allocate`, with its ValueErrors. */
  method Allocate(total: int, items: seq<Item>, quantum: int) returns (r: Result<seq<int>, ValueError>)
    requires quantum > 0
    ensures r == Allocated(total, items, quantum)
  {
    if items == [] {
      return Err(NoRecipients);
    }
    if exists i :: 0 <= i < |items| && items[i].weight < 0 {
      return Err(NegativeWeight);
    }
    if WeightSum(items) == 0 {
      return Err(ZeroWeights);
    }
    if Abs(total) % quantum != 0 {
      return Err(NotWholeMultiple);
    }
    WeightSumNonNegative(items);
    var floors := SplitUnits(Abs(total) / quantum, items);
    var shares := seq(|items|, i requires 0 <= i < |items| => SignedQuantum(total, quantum) * floors[i]);
    SucceedsIff(total, items, quantum);
    assert shares == Allocated(total, items, quantum).value;
    r := Ok(shares);
  }
}
