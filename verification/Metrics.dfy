/** Exact combat metrics: crates/eqcombat/src/metrics.rs. */
module Metrics {
  import opened Foundations

  // ----- 256-bit products -----

  /** The number a (high, low) pair of 128-bit limbs stands for. */
  function Wide(w: (U128, U128)): nat { w.0 * U128_LIMIT + w.1 }

  /** Rust compares the (high, low) tuple lexicographically. */
  predicate WideLe(a: (U128, U128), b: (U128, U128)) {
    a.0 < b.0 || (a.0 == b.0 && a.1 <= b.1)
  }

  lemma WideLeIsLe(a: (U128, U128), b: (U128, U128))
    ensures WideLe(a, b) <==> Wide(a) <= Wide(b)
  {
    if a.0 < b.0 {
      assert (a.0 + 1) * U128_LIMIT <= b.0 * U128_LIMIT;
    } else if b.0 < a.0 {
      assert (b.0 + 1) * U128_LIMIT <= a.0 * U128_LIMIT;
    }
  }

  lemma MulLe(a: int, b: int, c: int)
    requires 0 <= c
    ensures a <= b ==> a * c <= b * c
  {}

  lemma ProductBound(x: int, y: int, m: int)
    requires 0 <= x <= m && 0 <= y <= m
    ensures 0 <= x * y <= m * m
  { MulLe(x, m, y); MulLe(y, m, m); }

  lemma LimbProduct(x: int, y: int)
    requires 0 <= x < U64_LIMIT && 0 <= y < U64_LIMIT
    ensures 0 <= x * y <= 0xffff_ffff_ffff_fffe_0000_0000_0000_0001
  { ProductBound(x, y, 0xffff_ffff_ffff_ffff); }

  lemma Distribute(a: int, b: int, c: int, d: int)
    ensures (a * U64_LIMIT + b) * (c * U64_LIMIT + d)
         == (a * c) * (U64_LIMIT * U64_LIMIT) + (a * d + b * c) * U64_LIMIT + b * d
  {
    calc {
      (a * U64_LIMIT + b) * (c * U64_LIMIT + d);
      (a * U64_LIMIT) * (c * U64_LIMIT) + (a * U64_LIMIT) * d + b * (c * U64_LIMIT) + b * d;
      { assert (a * U64_LIMIT) * (c * U64_LIMIT) == (a * c) * (U64_LIMIT * U64_LIMIT); }
      { assert (a * U64_LIMIT) * d == (a * d) * U64_LIMIT; }
      { assert b * (c * U64_LIMIT) == (b * c) * U64_LIMIT; }
      (a * c) * (U64_LIMIT * U64_LIMIT) + (a * d + b * c) * U64_LIMIT + b * d;
    }
  }

  /** `wide_mul`: four 64-bit limb products and one carry. Typing every
      intermediate as U128 makes "no intermediate overflow" part of the proof. */
  function WideMul(left: U128, right: U128): (w: (U128, U128))
    ensures Wide(w) == left * right
  {
    var ll, lh := left % U64_LIMIT, left / U64_LIMIT;
    var rl, rh := right % U64_LIMIT, right / U64_LIMIT;
    LimbProduct(ll, rl); LimbProduct(ll, rh); LimbProduct(lh, rl); LimbProduct(lh, rh);
    var lowLow: U128 := ll * rl;
    var lowHigh: U128 := ll * rh;
    var highLow: U128 := lh * rl;
    var highHigh: U128 := lh * rh;
    var carry: U128 := lowLow / U64_LIMIT + lowHigh % U64_LIMIT + highLow % U64_LIMIT;
    var low: U128 := lowLow % U64_LIMIT + (carry % U64_LIMIT) * U64_LIMIT;
    Distribute(lh, ll, rh, rl);
    WideTotal(left * right, lowLow, lowHigh, highLow, highHigh, carry);
    ProductBound(left, right, U128_LIMIT - 1);
    var high: U128 := highHigh + lowHigh / U64_LIMIT + highLow / U64_LIMIT + carry / U64_LIMIT;
    (high, low)
  }

  lemma WideTotal(product: int, lowLow: int, lowHigh: int, highLow: int, highHigh: int, carry: int)
    requires product == highHigh * (U64_LIMIT * U64_LIMIT) + (highLow + lowHigh) * U64_LIMIT + lowLow
    requires carry == lowLow / U64_LIMIT + lowHigh % U64_LIMIT + highLow % U64_LIMIT
    ensures product ==
            (highHigh + lowHigh / U64_LIMIT + highLow / U64_LIMIT + carry / U64_LIMIT) * U128_LIMIT
            + lowLow % U64_LIMIT + (carry % U64_LIMIT) * U64_LIMIT
  {
  }

  // ----- exact floor quotient and shares -----

  /** The loop's test: a 256-bit product against the 256-bit numerator. */
  method ProductAtMost(left: U128, right: U128, numerator: (U128, U128)) returns (le: bool)
    ensures le <==> left * right <= Wide(numerator)
  {
    var product := WideMul(left, right);
    WideLeIsLe(product, numerator);
    le := WideLe(product, numerator);
  }

  /** `mul_div_bounded`: binary search for the quotient using 256-bit comparisons. */
  method MulDivBounded(a: U128, multiplier: U128, denominator: U128) returns (q: U128)
    requires 0 < denominator && a <= denominator
    ensures q == a * multiplier / denominator
  {
    var numerator := WideMul(a, multiplier);
    var low: U128, high: U128 := 0, multiplier;
    assert a * multiplier < (multiplier + 1) * denominator by { MulLe(a, denominator, multiplier); }
    while low < high
      invariant 0 <= low <= high <= multiplier
      invariant low * denominator <= a * multiplier < (high + 1) * denominator
    {
      var middle: U128 := low + (high - low + 1) / 2;
      var atMost := ProductAtMost(middle, denominator, numerator);
      if atMost {
        low := middle;
      } else {
        high := middle - 1;
      }
    }
    QuotientUnique(a * multiplier, denominator, low);
    q := low;
  }

  lemma QuotientUnique(n: int, d: int, q: int)
    requires 0 < d && q * d <= n < (q + 1) * d
    ensures q == n / d
  {
    MulLe(q + 1, n / d, d);
    MulLe(n / d + 1, q, d);
  }

  function Share(value: nat, total: nat): (r: nat)
  {
    if total == 0 then 0 else (if value <= total then value else total) * 1_000_000 / total
  }

  /** `ratio_millionths`. */
  method RatioMillionths(value: U128, total: U128) returns (r: U128)
    ensures r == Share(value, total) && r <= 1_000_000
  {
    if total == 0 { return 0; }
    var bounded: U128 := if value <= total then value else total;
    r := MulDivBounded(bounded, 1_000_000, total);
    ShareBounds(bounded, total);
  }

  lemma ShareBounds(value: nat, total: nat)
    requires 0 < total && value <= total
    ensures Share(value, total) * total <= value * 1_000_000 < (Share(value, total) + 1) * total
    ensures Share(value, total) <= 1_000_000
  {
    var q := value * 1_000_000 / total;
    assert q * total <= value * 1_000_000;
    MulLe(1_000_001, q, total);
  }

  function Sum(xs: seq<nat>): nat { if xs == [] then 0 else xs[0] + Sum(xs[1..]) }

  function Shares(xs: seq<nat>, total: nat): (r: seq<nat>)
    ensures |r| == |xs|
  { seq(|xs|, i requires 0 <= i < |xs| => Share(xs[i], total)) }

  lemma {:induction false} ElementAtMostSum(xs: seq<nat>, i: nat)
    requires i < |xs|
    ensures xs[i] <= Sum(xs)
  { if i > 0 { ElementAtMostSum(xs[1..], i - 1); } }

  lemma Regroup(head: int, tail: int, n: int, total: int)
    ensures (head + tail) * total == head * total + tail * total
    ensures (head + tail + n + 1) * total == (head + 1) * total + (tail + n) * total
  {}

  lemma {:induction false} ShareSumBounds(xs: seq<nat>, total: nat)
    requires 0 < total && forall i | 0 <= i < |xs| :: xs[i] <= total
    ensures Sum(Shares(xs, total)) * total <= Sum(xs) * 1_000_000
    ensures xs != [] ==> Sum(xs) * 1_000_000 < (Sum(Shares(xs, total)) + |xs|) * total
  {
    if xs != [] {
      ShareBounds(xs[0], total);
      ShareSumBounds(xs[1..], total);
      assert Shares(xs, total)[1..] == Shares(xs[1..], total);
      var head, tail := Share(xs[0], total), Sum(Shares(xs[1..], total));
      assert Sum(Shares(xs, total)) == head + tail;
      Regroup(head, tail, |xs| - 1, total);
    }
  }

  /** The rows' contributions never exceed the whole and lose less than one
      millionth per row. */
  lemma SharesNearlyWhole(damages: seq<nat>)
    requires 0 < Sum(damages)
    ensures Sum(Shares(damages, Sum(damages))) <= 1_000_000
    ensures 1_000_000 - |damages| < Sum(Shares(damages, Sum(damages)))
  {
    var total := Sum(damages);
    forall i | 0 <= i < |damages| ensures damages[i] <= total { ElementAtMostSum(damages, i); }
    ShareSumBounds(damages, total);
    var s := Sum(Shares(damages, total));
    MulLe(1_000_001, s, total);
    MulLe(s + |damages|, 1_000_000, total);
  }

  // ----- rates -----

  /** `u128::checked_add`. */
  function CheckedAdd128(a: U128, b: U128): Option<U128> {
    if a + b < U128_LIMIT then Some(a + b) else None
  }

  /** `round_rate`: the nearest integer rate, halves rounded up; the checked
      addition can never fail. */
  function RoundRate(damage: U128, seconds: U64): (r: Option<U128>)
    ensures r.Some?
    ensures var s := Max(seconds, 1);
            2 * damage - s < 2 * r.value * s <= 2 * damage + s
  {
    var s := Max(seconds, 1);
    var quotient, remainder := damage / s, damage % s;
    RateIsNearest(damage, s, quotient, remainder, if remainder >= (s + 1) / 2 then 1 else 0);
    CheckedAdd128(quotient, if remainder >= (s + 1) / 2 then 1 else 0)
  }

  lemma RateIsNearest(damage: U128, s: int, q: int, r: int, up: int)
    requires 1 <= s && q == damage / s && r == damage % s
    requires up == if r >= (s + 1) / 2 then 1 else 0
    ensures 2 * damage - s < 2 * (q + up) * s <= 2 * damage + s
    ensures 0 <= q && q + up < U128_LIMIT
  {
    var p := q * s;
    assert damage == p + r && 0 <= r < s && 0 <= q;
    assert 2 * (q + up) * s == 2 * (p + (if up == 1 then s else 0)) by { Spread(q, up, s); }
    HalfUp(s, r);
    if s > 1 { MulLe(2, s, q); }
  }

  lemma Spread(q: int, up: int, s: int)
    requires up == 0 || up == 1
    ensures 2 * (q + up) * s == 2 * (q * s + (if up == 1 then s else 0))
  {}

  lemma HalfUp(s: int, r: int)
    requires 1 <= s && 0 <= r < s
    ensures r >= (s + 1) / 2 <==> 2 * r >= s
  {}

  // ----- active time -----

  datatype Range = Range(begin: EqSecond, end: EqSecond)

  /** `inclusive_seconds`: overflowing or reversed spans count as one second. */
  function InclusiveSeconds(begin: EqSecond, end: EqSecond): (n: U64)
    ensures n == if begin <= end && end - begin < I64_MAX then end - begin + 1 else 1
  {
    if end - begin > I64_MAX || end - begin < I64_MIN || end - begin + 1 > I64_MAX || end - begin + 1 < 1
    then 1 else end - begin + 1
  }

  predicate RangeLe(a: Range, b: Range) { a.begin < b.begin || (a.begin == b.begin && a.end <= b.end) }

  predicate Sorted(rs: seq<Range>) { forall i, j | 0 <= i < j < |rs| :: RangeLe(rs[i], rs[j]) }

  /** Insertion into a sorted list. `sort_by_key` orders whole ranges by (begin,
      end), so equal keys are equal ranges and every correct sort gives this list. */
  function Insert(r: Range, rs: seq<Range>): seq<Range> {
    if rs == [] then [r]
    else if RangeLe(r, rs[0]) then [r] + rs
    else [rs[0]] + Insert(r, rs[1..])
  }

  lemma {:induction false} InsertKeeps(r: Range, rs: seq<Range>)
    ensures multiset(Insert(r, rs)) == multiset(rs) + multiset{r}
  {
    if rs != [] && !RangeLe(r, rs[0]) {
      InsertKeeps(r, rs[1..]);
      assert rs == [rs[0]] + rs[1..];
    }
  }

  lemma {:induction false} InsertSorted(r: Range, rs: seq<Range>)
    requires Sorted(rs)
    ensures Sorted(Insert(r, rs))
  {
    if rs != [] && !RangeLe(r, rs[0]) {
      var t := Insert(r, rs[1..]);
      InsertSorted(r, rs[1..]);
      InsertKeeps(r, rs[1..]);
      forall i | 0 <= i < |t| ensures RangeLe(rs[0], t[i]) {
        assert t[i] in multiset(t);
        if t[i] != r { assert t[i] in rs[1..]; }
      }
    }
  }

  function Sort(rs: seq<Range>): seq<Range> {
    if rs == [] then [] else Insert(rs[0], Sort(rs[1..]))
  }

  lemma {:induction false} SortIsSorted(rs: seq<Range>)
    ensures Sorted(Sort(rs)) && multiset(Sort(rs)) == multiset(rs) && |Sort(rs)| == |rs|
  {
    if rs != [] {
      SortIsSorted(rs[1..]);
      InsertSorted(rs[0], Sort(rs[1..]));
      InsertKeeps(rs[0], Sort(rs[1..]));
      assert rs == [rs[0]] + rs[1..];
      assert |Sort(rs)| == |multiset(Sort(rs))| == |multiset(rs)| == |rs|;
    }
  }

  lemma TailMultiset(a: seq<Range>)
    requires a != []
    ensures multiset(a[1..]) == multiset(a) - multiset{a[0]}
  { assert a == [a[0]] + a[1..]; }

  lemma SameHead(a: seq<Range>, b: seq<Range>)
    requires a != [] && Sorted(a) && Sorted(b) && multiset(a) == multiset(b)
    ensures b != [] && a[0] == b[0]
  {
    assert a[0] in multiset(b);
    assert b[0] in multiset(a);
    var i :| 0 <= i < |b| && b[i] == a[0];
    var j :| 0 <= j < |a| && a[j] == b[0];
  }

  lemma {:induction false} SortedUnique(a: seq<Range>, b: seq<Range>)
    requires Sorted(a) && Sorted(b) && multiset(a) == multiset(b)
    ensures a == b
  {
    if a == [] {
      assert |b| == |multiset(b)| == |multiset(a)| == 0;
      assert b == [];
    } else {
      SameHead(a, b);
      TailMultiset(a); TailMultiset(b);
      SortedUnique(a[1..], b[1..]);
      assert a == [a[0]] + a[1..] && b == [b[0]] + b[1..];
    }
  }

  /** Sweep from the run `current`, over ranges already sorted. */
  function Sweep(current: Range, rest: seq<Range>, bridge: EqSecond, total: U64): U64
    decreases |rest|
  {
    if rest == [] then SatAdd(total, InclusiveSeconds(current.begin, current.end))
    else
      var next := rest[0];
      var gap := if next.begin - current.end > I64_MAX || next.begin - current.end < I64_MIN then I64_MAX else next.begin - current.end;
      if next.begin <= current.end || gap <= bridge then
        Sweep(Range(current.begin, if next.end > current.end then next.end else current.end), rest[1..], bridge, total)
      else
        Sweep(next, rest[1..], bridge, SatAdd(total, InclusiveSeconds(current.begin, current.end)))
  }

  function UnionSeconds(ranges: seq<Range>, bridge: EqSecond): U64 {
    if ranges == [] then 1
    else var s := Sort(ranges);
      SortIsSorted(ranges);
      Max(Sweep(s[0], s[1..], bridge, 0), 1)
  }

  /** `union_range_seconds`. */
  method UnionRangeSeconds(ranges: seq<Range>, bridge: EqSecond) returns (n: U64)
    ensures n == UnionSeconds(ranges, bridge)
  {
    if ranges == [] { return 1; }
    var sorted := Sort(ranges);
    SortIsSorted(ranges);
    var total: U64 := 0;
    var current := sorted[0];
    for i := 1 to |sorted|
      invariant Sweep(current, sorted[i..], bridge, total) == Sweep(sorted[0], sorted[1..], bridge, 0)
    {
      var next := sorted[i];
      assert sorted[i..][0] == next && sorted[i..][1..] == sorted[i + 1..];
      var gap := if next.begin - current.end > I64_MAX || next.begin - current.end < I64_MIN then I64_MAX else next.begin - current.end;
      if next.begin <= current.end || gap <= bridge {
        if next.end > current.end {
          current := Range(current.begin, next.end);
        }
      } else {
        total := SatAdd(total, InclusiveSeconds(current.begin, current.end));
        current := next;
      }
    }
    n := Max(SatAdd(total, InclusiveSeconds(current.begin, current.end)), 1);
  }

  /** The result does not depend on the order of the ranges, for every input. */
  lemma UnionSecondsOrderFree(a: seq<Range>, b: seq<Range>, bridge: EqSecond)
    requires multiset(a) == multiset(b)
    ensures UnionSeconds(a, bridge) == UnionSeconds(b, bridge)
  {
    assert |a| == |multiset(a)| == |multiset(b)| == |b|;
    SortIsSorted(a); SortIsSorted(b);
    SortedUnique(Sort(a), Sort(b));
  }
}
