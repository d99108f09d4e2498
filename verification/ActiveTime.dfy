/** What active time means: `union_range_seconds` of crates/eqcombat/src/metrics.rs
    against the set of counted seconds, with the exact limit of its 64-bit lengths. */
module ActiveTime {
  import opened Foundations
  import opened Metrics

  predicate Covered(rs: seq<Range>, x: int) { exists i :: 0 <= i < |rs| && rs[i].begin <= x <= rs[i].end }

  /** Reference meaning: covered, or between two covered seconds at most the
      bridge apart. */
  ghost predicate Counted(rs: seq<Range>, bridge: int, x: int) {
    Covered(rs, x) || Bridged(rs, bridge, x)
  }

  ghost predicate Bridged(rs: seq<Range>, bridge: int, x: int) {
    exists a, b :: Covered(rs, a) && Covered(rs, b) && a <= x <= b && b - a <= bridge
  }

  /** One range holds both z and z + 1. */
  predicate Inside(rs: seq<Range>, z: int) { exists i :: 0 <= i < |rs| && rs[i].begin <= z < rs[i].end }

  /** The step from z to z + 1 stays within one range or one bridge. */
  ghost predicate Glued(rs: seq<Range>, bridge: int, z: int) {
    Inside(rs, z) || exists a, b :: Covered(rs, a) && Covered(rs, b) && a <= z < b && b - a <= bridge
  }

  predicate Ordered(rs: seq<Range>) { forall i | 0 <= i < |rs| :: rs[i].begin <= rs[i].end }

  // ----- the runs that the sweep finds -----

  function Joined(current: Range, next: Range): Range { Range(current.begin, Max(current.end, next.end)) }

  /** The maximal runs, from the run `current` over ranges already sorted. */
  function Runs(current: Range, rest: seq<Range>, bridge: int): (runs: seq<Range>)
    ensures runs != [] && runs[0].begin == current.begin
    decreases |rest|
  {
    if rest == [] then [current]
    else if rest[0].begin - current.end <= bridge then Runs(Joined(current, rest[0]), rest[1..], bridge)
    else [current] + Runs(rest[0], rest[1..], bridge)
  }

  /** Well-formed, and each run ends before the next one begins. */
  predicate Apart(runs: seq<Range>) {
    Ordered(runs) && forall i, j | 0 <= i < j < |runs| :: runs[i].end < runs[j].begin
  }

  lemma CoveredCons(r: Range, rest: seq<Range>, x: int)
    ensures Covered([r] + rest, x) <==> r.begin <= x <= r.end || Covered(rest, x)
    ensures Inside([r] + rest, x) <==> r.begin <= x < r.end || Inside(rest, x)
  {
    var rs := [r] + rest;
    assert rs[0] == r;
    assert forall i | 0 <= i < |rest| :: rs[i + 1] == rest[i];
    assert forall i | 0 < i < |rs| :: rs[i] == rest[i - 1];
  }

  /** Two ranges at most the bridge apart and their join: the same seconds, but for the gap. */
  lemma CoveredJoin(c: Range, n: Range, rest: seq<Range>, x: int)
    requires c.begin <= c.end && n.begin <= n.end && c.begin <= n.begin
    ensures Covered([Joined(c, n)] + rest, x) <==> Covered([c] + ([n] + rest), x) || c.end < x < n.begin
    ensures Inside([Joined(c, n)] + rest, x) <==> Inside([c] + ([n] + rest), x) || c.end <= x < n.begin
  {
    CoveredCons(Joined(c, n), rest, x);
    CoveredCons(c, [n] + rest, x);
    CoveredCons(n, rest, x);
  }

  /** Joining keeps the meaning of every second and every step. */
  lemma JoinKeeps(c: Range, n: Range, rest: seq<Range>, bridge: int, x: int)
    requires 0 <= bridge && c.begin <= c.end && n.begin <= n.end && c.begin <= n.begin && n.begin - c.end <= bridge
    ensures Counted([Joined(c, n)] + rest, bridge, x) <==> Counted([c] + ([n] + rest), bridge, x)
    ensures Glued([Joined(c, n)] + rest, bridge, x) <==> Glued([c] + ([n] + rest), bridge, x)
  {
    hide Covered, Inside;
    var js, rs := [Joined(c, n)] + rest, [c] + ([n] + rest);
    CoveredJoin(c, n, rest, x);
    EdgesCovered(c, n, rest);
    JoinToParts(c, n, rest, bridge, x);
    if Bridged(rs, bridge, x) {
      var a, b :| Covered(rs, a) && Covered(rs, b) && a <= x <= b && b - a <= bridge;
      CoveredJoin(c, n, rest, a); CoveredJoin(c, n, rest, b);
      assert Bridged(js, bridge, x);
    }
    if Glued(rs, bridge, x) && !Inside(rs, x) {
      var a, b :| Covered(rs, a) && Covered(rs, b) && a <= x < b && b - a <= bridge;
      CoveredJoin(c, n, rest, a); CoveredJoin(c, n, rest, b);
      assert Glued(js, bridge, x);
    }
  }

  lemma EdgesCovered(c: Range, n: Range, rest: seq<Range>)
    requires c.begin <= c.end && n.begin <= n.end
    ensures Covered([c] + ([n] + rest), c.end) && Covered([c] + ([n] + rest), n.begin)
  {
    CoveredCons(c, [n] + rest, c.end);
    CoveredCons(c, [n] + rest, n.begin);
    CoveredCons(n, rest, n.begin);
  }

  /** The other direction: a second of the gap is traded for the covered edge nearer to x. */
  lemma JoinToParts(c: Range, n: Range, rest: seq<Range>, bridge: int, x: int)
    requires 0 <= bridge && c.begin <= c.end && n.begin <= n.end && c.begin <= n.begin && n.begin - c.end <= bridge
    ensures Counted([Joined(c, n)] + rest, bridge, x) ==> Counted([c] + ([n] + rest), bridge, x)
    ensures Glued([Joined(c, n)] + rest, bridge, x) ==> Glued([c] + ([n] + rest), bridge, x)
  {
    hide Covered, Inside;
    var js, rs := [Joined(c, n)] + rest, [c] + ([n] + rest);
    EdgesCovered(c, n, rest);
    CoveredJoin(c, n, rest, x);
    if c.end < x < n.begin { assert Bridged(rs, bridge, x); }
    if c.end <= x < n.begin { assert Glued(rs, bridge, x); }
    if Bridged(js, bridge, x) && !Covered(js, x) {
      var a, b :| Covered(js, a) && Covered(js, b) && a <= x <= b && b - a <= bridge;
      CoveredJoin(c, n, rest, a); CoveredJoin(c, n, rest, b);
      var a', b' := if Covered(rs, a) then a else n.begin, if Covered(rs, b) then b else c.end;
      OutsideGap(c, n, rest, x);
      assert Covered(rs, a') && Covered(rs, b') && a' <= x <= b' && b' - a' <= bridge;
    }
    if Glued(js, bridge, x) && !Inside(js, x) {
      var a, b :| Covered(js, a) && Covered(js, b) && a <= x < b && b - a <= bridge;
      CoveredJoin(c, n, rest, a); CoveredJoin(c, n, rest, b);
      var a', b' := if Covered(rs, a) then a else n.begin, if Covered(rs, b) then b else c.end;
      if !(c.end <= x < n.begin) {
        assert Covered(rs, a') && Covered(rs, b') && a' <= x < b' && b' - a' <= bridge;
      }
    }
  }

  lemma OutsideGap(c: Range, n: Range, rest: seq<Range>, x: int)
    requires c.begin <= c.end && n.begin <= n.end && c.begin <= n.begin && !Covered([Joined(c, n)] + rest, x)
    ensures x < c.begin || (x > c.end && x > n.end)
  { CoveredCons(Joined(c, n), rest, x); }

  /** A gap wider than the bridge: no pair of covered seconds spans it. */
  lemma NoBridgeAcross(c: Range, rest: seq<Range>, bridge: int, a: int, b: int)
    requires rest != [] && c.begin <= c.end && rest[0].begin - c.end > bridge
    requires forall i | 0 <= i < |rest| :: rest[0].begin <= rest[i].begin
    requires Covered([c] + rest, a) && Covered([c] + rest, b) && a <= b && b - a <= bridge
    ensures (c.begin <= a && b <= c.end) || (Covered(rest, a) && Covered(rest, b))
  {
    CoveredCons(c, rest, a);
    CoveredCons(c, rest, b);
  }

  lemma RestIsCovered(c: Range, rest: seq<Range>, bridge: int, x: int)
    ensures Bridged(rest, bridge, x) ==> Bridged([c] + rest, bridge, x)
    ensures Glued(rest, bridge, x) ==> Glued([c] + rest, bridge, x)
  {
    forall y | Covered(rest, y) ensures Covered([c] + rest, y) { CoveredCons(c, rest, y); }
    CoveredCons(c, rest, x);
    hide Covered, Inside;
  }

  /** A gap wider than the bridge keeps the two sides apart. */
  lemma SplitKeeps(c: Range, rest: seq<Range>, bridge: int, x: int)
    requires 0 <= bridge && rest != [] && c.begin <= c.end && rest[0].begin - c.end > bridge
    requires forall i | 0 <= i < |rest| :: rest[0].begin <= rest[i].begin
    ensures Counted([c] + rest, bridge, x) <==> c.begin <= x <= c.end || Counted(rest, bridge, x)
    ensures Glued([c] + rest, bridge, x) <==> c.begin <= x < c.end || Glued(rest, bridge, x)
  {
    hide Covered, Inside;
    var rs := [c] + rest;
    CoveredCons(c, rest, x);
    RestIsCovered(c, rest, bridge, x);
    if Bridged(rs, bridge, x) {
      var a, b :| Covered(rs, a) && Covered(rs, b) && a <= x <= b && b - a <= bridge;
      NoBridgeAcross(c, rest, bridge, a, b);
    }
    if Glued(rs, bridge, x) && !Inside(rs, x) {
      var a, b :| Covered(rs, a) && Covered(rs, b) && a <= x < b && b - a <= bridge;
      NoBridgeAcross(c, rest, bridge, a, b);
    }
  }

  lemma SortedTail(c: Range, rest: seq<Range>)
    requires Sorted([c] + rest) && Ordered([c] + rest)
    ensures Sorted(rest) && Ordered(rest) && c.begin <= c.end
    ensures forall i | 0 <= i < |rest| :: c.begin <= rest[i].begin && rest[0].begin <= rest[i].begin
  {
    var rs := [c] + rest;
    assert rs[0] == c && forall i | 0 <= i < |rest| :: rest[i] == rs[i + 1];
  }

  lemma JoinSorted(c: Range, n: Range, rest: seq<Range>)
    requires Sorted([c] + ([n] + rest)) && Ordered([c] + ([n] + rest))
    ensures Sorted([Joined(c, n)] + rest) && Ordered([Joined(c, n)] + rest)
  {
    SortedTail(c, [n] + rest);
    SortedTail(n, rest);
    var js := [Joined(c, n)] + rest;
    assert forall i | 0 < i < |js| :: js[i] == rest[i - 1];
    forall j | 0 < j < |js| ensures RangeLe(js[0], js[j]) {
      var rs := [c] + ([n] + rest);
      assert rs[0] == c && rs[1] == n && rs[j + 1] == rest[j - 1];
      assert RangeLe(rs[0], rs[j + 1]) && RangeLe(rs[1], rs[j + 1]);
    }
  }

  /** The runs are exactly the counted seconds, and their inner steps exactly the glued ones. */
  lemma {:induction false} RunsMean(c: Range, rest: seq<Range>, bridge: int, x: int)
    requires 0 <= bridge && Sorted([c] + rest) && Ordered([c] + rest)
    ensures var runs := Runs(c, rest, bridge);
            (Covered(runs, x) <==> Counted([c] + rest, bridge, x)) && (Inside(runs, x) <==> Glued([c] + rest, bridge, x))
    decreases |rest|
  {
    SortedTail(c, rest);
    if rest == [] {
      OneRange(c, bridge, x);
      assert [c] + rest == [c];
    } else {
      var n, more := rest[0], rest[1..];
      assert rest == [n] + more;
      if n.begin - c.end <= bridge {
        JoinSorted(c, n, more);
        JoinKeeps(c, n, more, bridge, x);
        RunsMean(Joined(c, n), more, bridge, x);
      } else {
        SplitKeeps(c, rest, bridge, x);
        RunsMean(n, more, bridge, x);
        CoveredCons(c, Runs(n, more, bridge), x);
      }
    }
  }

  lemma OneRange(c: Range, bridge: int, x: int)
    ensures Covered([c], x) <==> Counted([c], bridge, x)
    ensures Inside([c], x) <==> Glued([c], bridge, x)
  {
    assert [c][0] == c;
  }

  lemma {:induction false} RunsApart(c: Range, rest: seq<Range>, bridge: int)
    requires 0 <= bridge && Sorted([c] + rest) && Ordered([c] + rest)
    ensures Apart(Runs(c, rest, bridge))
    decreases |rest|
  {
    SortedTail(c, rest);
    if rest != [] {
      var n, more := rest[0], rest[1..];
      assert rest == [n] + more;
      if n.begin - c.end <= bridge {
        JoinSorted(c, n, more);
        RunsApart(Joined(c, n), more, bridge);
      } else {
        RunsApart(n, more, bridge);
        var tail := Runs(n, more, bridge);
        assert forall j | 0 <= j < |tail| :: tail[0].begin <= tail[j].begin;
        ConsApart(c, tail);
      }
    }
  }

  lemma ConsApart(c: Range, tail: seq<Range>)
    requires Apart(tail) && c.begin <= c.end && forall j | 0 <= j < |tail| :: c.end < tail[j].begin
    ensures Apart([c] + tail)
  {
    var rs := [c] + tail;
    assert forall i | 0 < i < |rs| :: rs[i] == tail[i - 1];
  }

  // ----- how many seconds the runs hold, and what the sweep adds up -----

  function Length(r: Range): int { r.end - r.begin + 1 }

  function RunsLength(runs: seq<Range>): int { if runs == [] then 0 else Length(runs[0]) + RunsLength(runs[1..]) }

  ghost predicate SomeLong(runs: seq<Range>) { exists i :: 0 <= i < |runs| && Length(runs[i]) > I64_MAX }

  function Span(lo: int, hi: int): set<int> { set x | lo <= x <= hi && InSpan(x) }

  /** Names the bound variable of Span. */
  predicate InSpan(x: int) { true }

  lemma {:induction false} SpanSize(lo: int, hi: int)
    requires lo <= hi + 1
    ensures |Span(lo, hi)| == hi - lo + 1
    decreases hi - lo
  {
    if lo <= hi {
      SpanSize(lo, hi - 1);
      assert Span(lo, hi) == Span(lo, hi - 1) + {hi};
    }
  }

  /** The seconds of the 64-bit line that the ranges cover. */
  function CoveredSet(rs: seq<Range>): set<int> { set x | I64_MIN <= x <= I64_MAX && Covered(rs, x) }

  ghost function CountedSet(rs: seq<Range>, bridge: int): set<int> { set x | I64_MIN <= x <= I64_MAX && Counted(rs, bridge, x) }

  lemma {:induction false} CoveredSize(runs: seq<Range>)
    requires Apart(runs)
    ensures |CoveredSet(runs)| == RunsLength(runs)
  {
    if runs == [] {
      assert CoveredSet(runs) == {};
    } else {
      var c, tail := runs[0], runs[1..];
      assert runs == [c] + tail;
      TailApart(c, tail);
      CoveredSize(tail);
      SpanSize(c.begin, c.end);
      CoveredParts(c, tail);
    }
  }

  lemma TailApart(c: Range, tail: seq<Range>)
    requires Apart([c] + tail)
    ensures Apart(tail) && c.begin <= c.end && forall i | 0 <= i < |tail| :: c.end < tail[i].begin
  {
    var rs := [c] + tail;
    assert rs[0] == c && forall i | 0 <= i < |tail| :: tail[i] == rs[i + 1];
  }

  lemma CoveredParts(c: Range, tail: seq<Range>)
    requires c.begin <= c.end && forall i | 0 <= i < |tail| :: c.end < tail[i].begin
    ensures |CoveredSet([c] + tail)| == |Span(c.begin, c.end)| + |CoveredSet(tail)|
  {
    var front, back := Span(c.begin, c.end), CoveredSet(tail);
    assert front !! back;
    forall x ensures x in CoveredSet([c] + tail) <==> x in front + back { CoveredCons(c, tail, x); }
    assert CoveredSet([c] + tail) == front + back;
  }

  /** The saturating total of the sweep over the finished runs. */
  function SatTotal(runs: seq<Range>, total: U64): U64 {
    if runs == [] then total else SatTotal(runs[1..], SatAdd(total, InclusiveSeconds(runs[0].begin, runs[0].end)))
  }

  lemma {:induction false} SweepIsSatTotal(c: Range, rest: seq<Range>, bridge: EqSecond, total: U64)
    requires 0 <= bridge < I64_MAX && Sorted([c] + rest) && Ordered([c] + rest)
    ensures Sweep(c, rest, bridge, total) == SatTotal(Runs(c, rest, bridge), total)
    decreases |rest|
  {
    SortedTail(c, rest);
    if rest == [] {
      assert [c][1..] == [];
    } else {
      var n, more := rest[0], rest[1..];
      assert rest == [n] + more;
      if n.begin - c.end <= bridge {
        JoinSorted(c, n, more);
        SweepIsSatTotal(Joined(c, n), more, bridge, total);
      } else {
        var counted := SatAdd(total, InclusiveSeconds(c.begin, c.end));
        SweepIsSatTotal(n, more, bridge, counted);
        var tail := Runs(n, more, bridge);
        assert ([c] + tail)[1..] == tail;
      }
    }
  }

  /** The total never exceeds the true length, meets it up to saturation while no run is
      too long for a signed 64-bit length, and falls short otherwise. */
  lemma {:induction false} SatTotalMeans(runs: seq<Range>, total: U64)
    requires Ordered(runs)
    ensures RunsLength(runs) >= |runs|
    ensures !SomeLong(runs) ==> SatTotal(runs, total) == Min(U64_MAX, total + RunsLength(runs))
    ensures SomeLong(runs) ==> SatTotal(runs, total) < total + RunsLength(runs)
  {
    if runs != [] {
      var c, tail := runs[0], runs[1..];
      assert forall i | 0 <= i < |tail| :: tail[i] == runs[i + 1];
      SatTotalMeans(tail, SatAdd(total, InclusiveSeconds(c.begin, c.end)));
      assert SomeLong(runs) <==> Length(c) > I64_MAX || SomeLong(tail) by {
        if SomeLong(runs) && Length(c) <= I64_MAX {
          var i :| 0 <= i < |runs| && Length(runs[i]) > I64_MAX;
          assert tail[i - 1] == runs[i];
        }
      }
    }
  }

  // ----- the exact condition -----

  /** More than a signed 64-bit length of seconds hang together. */
  ghost predicate LongRun(rs: seq<Range>, bridge: int) {
    exists x: int :: GluedFrom(rs, bridge, x)
  }

  ghost predicate GluedFrom(rs: seq<Range>, bridge: int, x: int) {
    forall z | x <= z < x + I64_MAX :: Glued(rs, bridge, z)
  }

  /** Every second of the line counts: 2^64 of them, one more than the result can say. */
  ghost predicate WholeLine(rs: seq<Range>, bridge: int) {
    forall x | I64_MIN <= x <= I64_MAX :: Counted(rs, bridge, x)
  }

  /** Consecutive inner steps belong to one run. */
  lemma {:induction false} OneRun(runs: seq<Range>, x: int, n: nat) returns (i: nat)
    requires Apart(runs) && n > 0 && forall z | x <= z < x + n :: Inside(runs, z)
    ensures i < |runs| && runs[i].begin <= x && x + n <= runs[i].end
  {
    assert Inside(runs, x + n - 1);
    if n == 1 {
      i :| 0 <= i < |runs| && runs[i].begin <= x < runs[i].end;
    } else {
      i := OneRun(runs, x, n - 1);
      var j :| 0 <= j < |runs| && runs[j].begin <= x + n - 1 < runs[j].end;
      assert i == j;
    }
  }

  lemma LongIsLong(runs: seq<Range>, rs: seq<Range>, bridge: int)
    requires Apart(runs) && forall z :: Inside(runs, z) <==> Glued(rs, bridge, z)
    ensures SomeLong(runs) <==> LongRun(rs, bridge)
  {
    hide Glued;
    if SomeLong(runs) {
      var i :| 0 <= i < |runs| && Length(runs[i]) > I64_MAX;
      forall z | runs[i].begin <= z < runs[i].begin + I64_MAX ensures Glued(rs, bridge, z) { assert Inside(runs, z); }
      assert GluedFrom(rs, bridge, runs[i].begin);
    }
    if LongRun(rs, bridge) {
      var x: int :| GluedFrom(rs, bridge, x);
      forall z | x <= z < x + I64_MAX ensures Inside(runs, z) { assert Glued(rs, bridge, z); }
      var i := OneRun(runs, x, I64_MAX);
      assert Length(runs[i]) > I64_MAX;
    }
  }

  lemma WholeLineSize(rs: seq<Range>, bridge: int)
    ensures |CountedSet(rs, bridge)| <= U64_LIMIT
    ensures WholeLine(rs, bridge) <==> |CountedSet(rs, bridge)| == U64_LIMIT
  {
    hide Counted;
    var all := Span(I64_MIN, I64_MAX);
    SpanSize(I64_MIN, I64_MAX);
    var some := CountedSet(rs, bridge);
    assert some <= all;
    SubsetSize(some, all);
    if WholeLine(rs, bridge) { assert some == all; }
    if some == all { forall x | I64_MIN <= x <= I64_MAX ensures Counted(rs, bridge, x) { assert x in all; } }
  }

  /** Sorting changes which seconds are counted or glued as little as it changes the ranges. */
  lemma SameMeaning(rs: seq<Range>, sorted: seq<Range>, bridge: int)
    requires multiset(rs) == multiset(sorted)
    ensures forall x :: Counted(rs, bridge, x) <==> Counted(sorted, bridge, x)
    ensures forall x :: Glued(rs, bridge, x) <==> Glued(sorted, bridge, x)
  {
    forall x ensures (Covered(rs, x) <==> Covered(sorted, x)) && (Inside(rs, x) <==> Inside(sorted, x)) {
      SameCover(rs, sorted, x);
      SameCover(sorted, rs, x);
    }
    hide Covered, Inside;
  }

  lemma SameCover(rs: seq<Range>, sorted: seq<Range>, x: int)
    requires multiset(rs) == multiset(sorted)
    ensures Covered(rs, x) ==> Covered(sorted, x)
    ensures Inside(rs, x) ==> Inside(sorted, x)
  {
    if Covered(rs, x) {
      var i :| 0 <= i < |rs| && rs[i].begin <= x <= rs[i].end;
      assert rs[i] in multiset(sorted);
    }
    if Inside(rs, x) {
      var i :| 0 <= i < |rs| && rs[i].begin <= x < rs[i].end;
      assert rs[i] in multiset(sorted);
    }
  }

  lemma SortedOrdered(rs: seq<Range>)
    requires Ordered(rs)
    ensures Ordered(Sort(rs)) && Sorted(Sort(rs)) && multiset(Sort(rs)) == multiset(rs) && |Sort(rs)| == |rs|
  {
    SortIsSorted(rs);
    var s := Sort(rs);
    forall i | 0 <= i < |s| ensures s[i].begin <= s[i].end {
      assert s[i] in multiset(s);
      assert s[i] in rs;
    }
  }

  /** The runs of the sorted ranges, with everything known about them. */
  lemma RunsOf(rs: seq<Range>, bridge: EqSecond) returns (runs: seq<Range>)
    requires rs != [] && Ordered(rs) && 0 <= bridge < I64_MAX
    ensures Apart(runs) && runs != []
    ensures UnionSeconds(rs, bridge) == Max(SatTotal(runs, 0), 1)
    ensures CoveredSet(runs) == CountedSet(rs, bridge)
    ensures forall z :: Inside(runs, z) <==> Glued(rs, bridge, z)
  {
    hide Counted, Glued, Covered, Inside;
    SortedOrdered(rs);
    var s := Sort(rs);
    assert [s[0]] + s[1..] == s;
    runs := Runs(s[0], s[1..], bridge);
    RunsApart(s[0], s[1..], bridge);
    SweepIsSatTotal(s[0], s[1..], bridge, 0);
    SameMeaning(rs, s, bridge);
    forall x ensures (Covered(runs, x) <==> Counted(rs, bridge, x)) && (Inside(runs, x) <==> Glued(rs, bridge, x)) {
      RunsMean(s[0], s[1..], bridge, x);
    }
  }

  /** Active time never exceeds the number of counted seconds of a non-empty list, and is
      that number exactly when there is a range, no run is longer than a signed 64-bit
      length and some second does not count. An empty list counts as one second. */
  lemma ActiveTimeIff(rs: seq<Range>, bridge: EqSecond)
    requires Ordered(rs) && 0 <= bridge < I64_MAX
    ensures rs != [] ==> UnionSeconds(rs, bridge) <= |CountedSet(rs, bridge)|
    ensures UnionSeconds(rs, bridge) == |CountedSet(rs, bridge)|
            <==> rs != [] && !LongRun(rs, bridge) && !WholeLine(rs, bridge)
  {
    if rs == [] {
      NothingCounted(bridge);
    } else {
      hide Glued, Counted, LongRun, WholeLine, Inside;
      var runs := RunsOf(rs, bridge);
      LongIsLong(runs, rs, bridge);
      CoveredSize(runs);
      SatTotalMeans(runs, 0);
      WholeLineSize(rs, bridge);
    }
  }

  lemma NothingCounted(bridge: EqSecond)
    ensures UnionSeconds([], bridge) == 1 && CountedSet([], bridge) == {}
  {}

  /** The whole 64-bit line as one range counts as a single second. */
  lemma WholeLineExample()
    ensures var rs := [Range(I64_MIN, I64_MAX)];
            Ordered(rs) && UnionSeconds(rs, 6) == 1 && |CountedSet(rs, 6)| == U64_LIMIT
  {
    var rs := [Range(I64_MIN, I64_MAX)];
    assert Sort(rs) == rs && rs[1..] == [];
    forall x | I64_MIN <= x <= I64_MAX ensures Counted(rs, 6, x) { assert rs[0].begin <= x <= rs[0].end; }
    WholeLineSize(rs, 6);
  }

  // ----- positive bridges -----

  /** With a positive bridge two neighbouring counted seconds always hang together. */
  lemma NeighboursGlued(rs: seq<Range>, bridge: int, z: int)
    requires 1 <= bridge && Ordered(rs)
    ensures Glued(rs, bridge, z) <==> Counted(rs, bridge, z) && Counted(rs, bridge, z + 1)
  {
    if Inside(rs, z) {
      assert Covered(rs, z) && Covered(rs, z + 1);
    }
  }

  /** For the bridge of the shipped policy and every other positive one: active time is the
      number of counted seconds exactly when there is a range and no 2^63 consecutive
      seconds are all counted. */
  lemma ActiveTimePositiveBridge(rs: seq<Range>, bridge: EqSecond)
    requires Ordered(rs) && 1 <= bridge < I64_MAX
    ensures UnionSeconds(rs, bridge) == |CountedSet(rs, bridge)|
            <==> rs != [] && !exists x: int :: AllCountedFrom(rs, bridge, x)
  {
    hide Glued, Counted;
    ActiveTimeIff(rs, bridge);
    forall z ensures Glued(rs, bridge, z) <==> Counted(rs, bridge, z) && Counted(rs, bridge, z + 1) { NeighboursGlued(rs, bridge, z); }
    if x: int :| AllCountedFrom(rs, bridge, x) {
      forall z | x <= z < x + I64_MAX ensures Glued(rs, bridge, z) { assert Counted(rs, bridge, z) && Counted(rs, bridge, z + 1); }
      assert GluedFrom(rs, bridge, x);
    }
    if LongRun(rs, bridge) {
      var x: int :| GluedFrom(rs, bridge, x);
      forall y | x <= y <= x + I64_MAX ensures Counted(rs, bridge, y) {
        var z := if y == x + I64_MAX then y - 1 else y;
        assert Glued(rs, bridge, z);
        NeighboursGlued(rs, bridge, z);
      }
      assert AllCountedFrom(rs, bridge, x);
    }
    if WholeLine(rs, bridge) { assert AllCountedFrom(rs, bridge, I64_MIN); }
  }

  /** 2^63 consecutive counted seconds. */
  ghost predicate AllCountedFrom(rs: seq<Range>, bridge: int, x: int) {
    forall y | x <= y <= x + I64_MAX :: Counted(rs, bridge, y)
  }

  /** With bridge zero, ranges that only touch stay separate runs, so 2^63 consecutive
      counted seconds can still be counted right. */
  lemma TouchingRangesExample()
    ensures var rs := [Range(I64_MIN, -2), Range(-1, 10)];
            UnionSeconds(rs, 0) == I64_MAX + 12 && forall y | I64_MIN <= y <= I64_MIN + I64_MAX :: Covered(rs, y)
  {
    var rs := [Range(I64_MIN, -2), Range(-1, 10)];
    assert rs[1..] == [Range(-1, 10)] && Sort([Range(-1, 10)]) == [Range(-1, 10)];
    assert Sort(rs) == rs;
    assert [Range(-1, 10)][1..] == [];
    assert Sweep(rs[0], rs[1..], 0, 0) == Sweep(Range(-1, 10), [], 0, I64_MAX);
    forall y | I64_MIN <= y <= I64_MIN + I64_MAX ensures Covered(rs, y) {
      if y <= -2 { assert rs[0].begin <= y <= rs[0].end; } else { assert rs[1].begin <= y <= rs[1].end; }
    }
  }

  // ----- the largest bridge -----

  /** With the largest bridge the overflow sentinel joins everything: one run over the hull. */
  lemma {:induction false} SentinelJoins(c: Range, rest: seq<Range>, hi: EqSecond)
    requires Sorted([c] + rest) && Ordered([c] + rest)
    requires (forall i | 0 <= i < |rest| :: rest[i].end <= hi) && c.end <= hi
    requires c.end == hi || exists i :: 0 <= i < |rest| && rest[i].end == hi
    ensures Sweep(c, rest, I64_MAX, 0) == InclusiveSeconds(c.begin, hi)
    decreases |rest|
  {
    SortedTail(c, rest);
    if rest != [] {
      var n, more := rest[0], rest[1..];
      assert rest == [n] + more;
      JoinSorted(c, n, more);
      SentinelJoins(Joined(c, n), more, hi);
    }
  }

  ghost predicate Hull(rs: seq<Range>, lo: int, hi: int) {
    (forall i | 0 <= i < |rs| :: lo <= rs[i].begin && rs[i].end <= hi)
    && (exists i :: 0 <= i < |rs| && rs[i].begin == lo) && exists i :: 0 <= i < |rs| && rs[i].end == hi
  }

  lemma SameHull(rs: seq<Range>, sorted: seq<Range>, lo: int, hi: int)
    requires multiset(rs) == multiset(sorted) && Hull(rs, lo, hi)
    ensures Hull(sorted, lo, hi)
  {
    forall i | 0 <= i < |sorted| ensures lo <= sorted[i].begin && sorted[i].end <= hi { assert sorted[i] in multiset(rs); }
    var i :| 0 <= i < |rs| && rs[i].begin == lo;
    var j :| 0 <= j < |rs| && rs[j].end == hi;
    assert rs[i] in multiset(sorted) && rs[j] in multiset(sorted);
  }

  /** From the earliest to the latest second is a signed 64-bit length. */
  predicate HullFits(rs: seq<Range>) {
    forall i, j | 0 <= i < |rs| && 0 <= j < |rs| :: rs[j].end - rs[i].begin < I64_MAX
  }

  /** The largest bridge: right exactly when there is a range and the hull fits. */
  lemma ActiveTimeLargestBridge(rs: seq<Range>)
    requires Ordered(rs)
    ensures UnionSeconds(rs, I64_MAX) == |CountedSet(rs, I64_MAX)| <==> rs != [] && HullFits(rs)
  {
    if rs == [] {
      NothingCounted(I64_MAX);
    } else {
      hide CountedSet, UnionSeconds;
      var lo, hi := HullOf(rs);
      LargestBridgeHull(rs, lo, hi);
      HullFitsIff(rs, lo, hi);
    }
  }

  lemma HullFitsIff(rs: seq<Range>, lo: EqSecond, hi: EqSecond)
    requires Hull(rs, lo, hi)
    ensures HullFits(rs) <==> hi - lo < I64_MAX
  {
    var i :| 0 <= i < |rs| && rs[i].begin == lo;
    var j :| 0 <= j < |rs| && rs[j].end == hi;
  }

  lemma {:induction false} HullOf(rs: seq<Range>) returns (lo: EqSecond, hi: EqSecond)
    requires rs != []
    ensures Hull(rs, lo, hi)
  {
    lo, hi := rs[0].begin, rs[0].end;
    if |rs| > 1 {
      var l, h := HullOf(rs[1..]);
      lo, hi := Min(lo, l), Max(hi, h);
      HullPush(rs, l, h);
    } else {
      assert rs[0].begin == lo && rs[0].end == hi;
    }
  }

  lemma HullPush(rs: seq<Range>, lo: int, hi: int)
    requires rs != [] && Hull(rs[1..], lo, hi)
    ensures Hull(rs, Min(rs[0].begin, lo), Max(rs[0].end, hi))
  {
    var rest := rs[1..];
    var i :| 0 <= i < |rest| && rest[i].begin == lo;
    var j :| 0 <= j < |rest| && rest[j].end == hi;
    assert rs[i + 1].begin == lo && rs[j + 1].end == hi;
    assert forall k | 0 < k < |rs| :: rs[k] == rest[k - 1];
  }

  lemma LargestBridgeHull(rs: seq<Range>, lo: EqSecond, hi: EqSecond)
    requires rs != [] && Ordered(rs) && Hull(rs, lo, hi)
    ensures UnionSeconds(rs, I64_MAX) == |CountedSet(rs, I64_MAX)| <==> hi - lo < I64_MAX
  {
    SortedOrdered(rs);
    var s := Sort(rs);
    assert [s[0]] + s[1..] == s;
    SameHull(rs, s, lo, hi);
    var i :| 0 <= i < |s| && s[i].begin == lo;
    assert s[0].begin == lo;
    assert forall k | 0 < k < |s| :: s[1..][k - 1] == s[k];
    SentinelJoins(s[0], s[1..], hi);
    HullCounted(rs, lo, hi);
  }

  lemma HullCounted(rs: seq<Range>, lo: EqSecond, hi: EqSecond)
    requires Ordered(rs) && Hull(rs, lo, hi)
    ensures hi - lo < I64_MAX ==> |CountedSet(rs, I64_MAX)| == hi - lo + 1
    ensures hi - lo >= I64_MAX ==> |CountedSet(rs, I64_MAX)| >= 2
  {
    var all := CountedSet(rs, I64_MAX);
    var i :| 0 <= i < |rs| && rs[i].begin == lo;
    var j :| 0 <= j < |rs| && rs[j].end == hi;
    assert Covered(rs, lo) && Covered(rs, hi);
    assert lo in all && hi in all;
    if hi - lo < I64_MAX {
      forall x ensures x in all <==> x in Span(lo, hi) {
        if x in Span(lo, hi) { assert Bridged(rs, I64_MAX, x); }
      }
      assert all == Span(lo, hi);
      SpanSize(lo, hi);
    } else {
      SubsetSize({lo, hi}, all);
    }
  }
}
