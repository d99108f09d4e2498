/** Bounded integers, options and the total order on identifier strings that the
    rest of the project shares. */
module Foundations {

  const U64_LIMIT: int := 0x1_0000_0000_0000_0000
  const U64_MAX: int := 0xffff_ffff_ffff_ffff
  const U128_LIMIT: int := 0x1_0000_0000_0000_0000_0000_0000_0000_0000
  const I64_MIN: int := -0x8000_0000_0000_0000
  const I64_MAX: int := 0x7fff_ffff_ffff_ffff

  type U64 = x: int | 0 <= x < 0x1_0000_0000_0000_0000
  type U128 = x: int | 0 <= x < 0x1_0000_0000_0000_0000_0000_0000_0000_0000
  /** A civil second of an EverQuest log: a signed 64-bit count. */
  type EqSecond = x: int | -0x8000_0000_0000_0000 <= x < 0x8000_0000_0000_0000

  datatype Option<+T> = None | Some(value: T)

  function Min(a: int, b: int): int { if a <= b then a else b }
  function Max(a: int, b: int): int { if a <= b then b else a }

  /** `u64::saturating_add`. */
  function SatAdd(a: U64, b: U64): U64 { if a + b >= U64_LIMIT then U64_MAX else a + b }

  /** `u64::saturating_sub`. */
  function SatSub(a: U64, b: U64): U64 { if a <= b then 0 else a - b }

  /** `EqSecond::checked_add`. */
  function CheckedAdd(t: EqSecond, d: int): Option<EqSecond> {
    if I64_MIN <= t + d <= I64_MAX then Some(t + d) else None
  }

  /** `Option::max` on seconds, where None is below every Some. */
  function MaxOpt(a: Option<EqSecond>, b: Option<EqSecond>): Option<EqSecond> {
    match (a, b)
    case (None, _) => b
    case (_, None) => a
    case (Some(x), Some(y)) => if x <= y then b else a
  }

  /** The order of `Option<EqSecond>`. */
  predicate LeOpt(a: Option<EqSecond>, b: Option<EqSecond>) {
    a.None? || (b.Some? && a.value <= b.value)
  }

  // ----- text -----

  function LowerChar(c: char): char { if 'A' <= c <= 'Z' then c + 32 as char else c }

  /** `to_ascii_lowercase`. */
  function Lower(s: string): string {
    seq(|s|, i requires 0 <= i < |s| => LowerChar(s[i]))
  }

  // ----- decimal numerals -----

  function Decimal(n: nat): string {
    if n < 10 then [Digit(n)] else Decimal(n / 10) + [Digit(n % 10)]
  }

  function Digit(d: nat): char requires d < 10 { '0' + d as char }

  // ----- identifiers: strings under the lexicographic order -----

  predicate StrLe(a: string, b: string) {
    if a == "" then true
    else if b == "" then false
    else if a[0] != b[0] then a[0] < b[0]
    else StrLe(a[1..], b[1..])
  }

  lemma {:induction false} StrLeTotal(a: string, b: string)
    ensures StrLe(a, b) || StrLe(b, a)
  {
    if a != "" && b != "" && a[0] == b[0] { StrLeTotal(a[1..], b[1..]); }
  }

  lemma {:induction false} StrLeAntisymmetric(a: string, b: string)
    requires StrLe(a, b) && StrLe(b, a)
    ensures a == b
  {
    if a != "" && b != "" {
      StrLeAntisymmetric(a[1..], b[1..]);
      assert a == [a[0]] + a[1..] && b == [b[0]] + b[1..];
    }
  }

  lemma {:induction false} StrLeTransitive(a: string, b: string, c: string)
    requires StrLe(a, b) && StrLe(b, c)
    ensures StrLe(a, c)
  {
    if a != "" && b != "" && c != "" && a[0] == b[0] == c[0] {
      StrLeTransitive(a[1..], b[1..], c[1..]);
    }
  }

  lemma StrLeReflexive(a: string)
    ensures StrLe(a, a)
  { StrLeTotal(a, a); }

  lemma LeastExists(ids: set<string>)
    requires ids != {}
    ensures exists least :: least in ids && forall id | id in ids :: StrLe(least, id)
  {
    var pick :| pick in ids;
    var rest := ids - {pick};
    if rest == {} {
      StrLeReflexive(pick);
      assert ids == {pick} + rest;
    } else {
      LeastExists(rest);
      var low :| low in rest && forall id | id in rest :: StrLe(low, id);
      StrLeTotal(pick, low);
      var least := if StrLe(pick, low) then pick else low;
      forall id | id in ids ensures StrLe(least, id) {
        if id == pick { StrLeReflexive(pick); }
        else if StrLe(pick, low) { StrLeTransitive(pick, low, id); }
      }
    }
  }

  /** The first key that an ordered map visits. */
  ghost function Least(ids: set<string>): (least: string)
    requires ids != {}
    ensures least in ids && forall id | id in ids :: StrLe(least, id)
  {
    LeastExists(ids);
    var least :| least in ids && forall id | id in ids :: StrLe(least, id);
    least
  }

  lemma LeastUnique(ids: set<string>, x: string)
    requires x in ids && forall id | id in ids :: StrLe(x, id)
    ensures Least(ids) == x
  {
    StrLeAntisymmetric(Least(ids), x);
  }

  /** The order in which an ordered map visits its keys. */
  ghost function InOrder(ids: set<string>): (s: seq<string>)
    ensures |s| == |ids|
    ensures forall id :: id in s <==> id in ids
    ensures forall i, j | 0 <= i < j < |s| :: s[i] != s[j]
  {
    if ids == {} then [] else
      var least := Least(ids);
      var rest := InOrder(ids - {least});
      [least] + rest
  }

  lemma LeastNat(xs: set<nat>, bound: nat)
    requires exists x :: x in xs && x <= bound
    ensures exists least :: least in xs && forall x | x in xs :: least <= x
    decreases bound
  {
    if exists x :: x in xs && x < bound {
      LeastNat(xs, bound - 1);
    } else {
      var x :| x in xs && x <= bound;
    }
  }

  /** `sort_unstable` then `dedup`: the elements once each, in increasing order. */
  ghost function Ascending(xs: set<nat>): (r: seq<nat>)
    ensures forall x :: x in r <==> x in xs
    ensures forall i, j | 0 <= i < j < |r| :: r[i] < r[j]
  {
    if xs == {} then [] else
      var least := LeastOf(xs);
      var rest := Ascending(xs - {least});
      assert forall i | 0 <= i < |rest| :: rest[i] in xs - {least};
      [least] + rest
  }

  ghost function LeastOf(xs: set<nat>): (least: nat)
    requires xs != {}
    ensures least in xs && forall x | x in xs :: least <= x
  {
    var some :| some in xs;
    LeastNat(xs, some);
    var least :| least in xs && forall x | x in xs :: least <= x;
    least
  }

  lemma AscendingStep(done: seq<nat>, xs: set<nat>, x: nat)
    requires x in xs && forall y | y in xs :: x <= y
    ensures done + Ascending(xs) == done + [x] + Ascending(xs - {x})
  {
    assert LeastOf(xs) == x;
  }

  lemma AscendingNone()
    ensures Ascending({}) == []
  {}

  lemma {:induction false} SubsetSize<T>(a: set<T>, b: set<T>)
    requires a <= b
    ensures |a| <= |b| && (|a| == |b| ==> a == b)
    decreases |a|
  {
    if a != {} {
      var x :| x in a;
      SubsetSize(a - {x}, b - {x});
      assert a == (a - {x}) + {x} && b == (b - {x}) + {x};
    }
  }
}
