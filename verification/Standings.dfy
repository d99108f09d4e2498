/** The elected source of every participant, the raid total and the published rows.
    crates/eqcombat/src/engine.rs, the second half of `elect` and `compute_snapshot`. */
module Standings {
  import opened Foundations
  import opened CombatModel
  import opened Metrics
  import opened Election

  /** A list that visits every element of the set once. */
  ghost predicate Enumerates<T(!new)>(xs: seq<T>, s: set<T>) {
    (forall x :: x in xs <==> x in s) && forall i, j | 0 <= i < j < |xs| :: xs[i] != xs[j]
  }

  lemma EnumeratesTail<T(!new)>(xs: seq<T>, s: set<T>)
    requires xs != [] && Enumerates(xs, s)
    ensures xs[0] in s && Enumerates(xs[1..], s - {xs[0]})
  {
    assert xs == [xs[0]] + xs[1..];
  }

  // ----- overflow -----

  /** Every candidate's damage and event count fit their counters. */
  ghost predicate Fits(cs: seq<Credit>) {
    forall k :: Total(DamageFor(k), cs) < U128_LIMIT && Total(EventsFor(k), cs) < U64_LIMIT
  }

  lemma FitsPush(cs: seq<Credit>)
    requires cs != []
    ensures var k := KeyOf(cs[|cs| - 1]);
            Fits(cs) <==> Fits(cs[..|cs| - 1]) && Total(DamageFor(k), cs) < U128_LIMIT && Total(EventsFor(k), cs) < U64_LIMIT
  {
    hide Total;
    forall k ensures Total(DamageFor(k), cs[..|cs| - 1]) <= Total(DamageFor(k), cs)
                  && Total(EventsFor(k), cs[..|cs| - 1]) <= Total(EventsFor(k), cs) {
      TotalPush(DamageFor(k), cs);
      TotalPush(EventsFor(k), cs);
    }
    forall k | k != KeyOf(cs[|cs| - 1])
      ensures Total(DamageFor(k), cs[..|cs| - 1]) == Total(DamageFor(k), cs)
           && Total(EventsFor(k), cs[..|cs| - 1]) == Total(EventsFor(k), cs) {
      OtherKeyTotals(k, cs);
    }
  }

  lemma CreditedFits(o: Candidate, k: Key, cs: seq<Credit>)
    requires cs != [] && KeyOf(cs[|cs| - 1]) == k
    requires Totals(o, k, cs[..|cs| - 1]) && TargetTotals(o, k, cs[..|cs| - 1])
    ensures Credited(o, cs[|cs| - 1]).Some? <==> Total(DamageFor(k), cs) < U128_LIMIT && Total(EventsFor(k), cs) < U64_LIMIT
  {
    hide Total, Strikes, Spans;
    var c, before := cs[|cs| - 1], cs[..|cs| - 1];
    TotalPush(DamageFor(k), cs);
    TotalPush(EventsFor(k), cs);
    DamageIsDirectPlusPet(k, before);
    PartAtMostDamage(k, c.target, before);
  }

  /** Gathering fails exactly when some candidate's own total overflows. */
  lemma {:induction false} TallyFits(ev: Evidence, e: Encounter, cs: seq<Credit>)
    ensures Tally(ev, e, cs).Some? <==> Fits(cs)
  {
    if cs != [] {
      hide Fits, Total, Credited, Totals, TargetTotals, Flags, Blank, Complete, Occurs;
      var c, before := cs[|cs| - 1], cs[..|cs| - 1];
      var k := KeyOf(c);
      TallyFits(ev, e, before);
      TallyMatches(ev, e, before);
      FitsPush(cs);
      if Tally(ev, e, before).Some? {
        var m := Tally(ev, e, before).value;
        if k !in m { BlankDescribes(c, Complete(ev, e, k.1), k, before); }
        CreditedFits(if k in m then m[k] else Blank(c, Complete(ev, e, k.1)), k, cs);
      }
    } else {
      assert Fits(cs);
    }
  }

  /** So with fewer than 2^64 facts it never fails. */
  lemma FewFactsFit(cs: seq<Credit>)
    requires |cs| < U64_LIMIT
    ensures Fits(cs)
  {
    forall k ensures Total(DamageFor(k), cs) < U128_LIMIT && Total(EventsFor(k), cs) < U64_LIMIT {
      TotalBound(DamageFor(k), cs);
      TotalBound(EventsFor(k), cs);
      MulLe(|cs|, U64_MAX, U64_MAX);
    }
  }

  // ----- a candidate's damage, target by target -----

  lemma {:induction false} OnAnySplits(k: Key, t: TargetId, ts: set<TargetId>, cs: seq<Credit>)
    requires t in ts
    ensures Total(DamageOnAny(k, ts), cs) == Total(DamageOn(k, t), cs) + Total(DamageOnAny(k, ts - {t}), cs)
  { if cs != [] { OnAnySplits(k, t, ts, cs[..|cs| - 1]); } }

  lemma {:induction false} OnNoneIsZero(k: Key, cs: seq<Credit>)
    ensures Total(DamageOnAny(k, {}), cs) == 0
  { if cs != [] { OnNoneIsZero(k, cs[..|cs| - 1]); } }

  lemma {:induction false} OnAnyIsAll(k: Key, ts: set<TargetId>, cs: seq<Credit>)
    requires forall i | 0 <= i < |cs| && KeyOf(cs[i]) == k :: cs[i].target in ts
    ensures Total(DamageOnAny(k, ts), cs) == Total(DamageFor(k), cs)
  {
    if cs != [] {
      assert forall i | 0 <= i < |cs| - 1 :: cs[..|cs| - 1][i] == cs[i];
      OnAnyIsAll(k, ts, cs[..|cs| - 1]);
    }
  }

  function DamageList(m: map<TargetId, U128>, ts: seq<TargetId>): (r: seq<nat>)
    requires forall t | t in ts :: t in m
  { seq(|ts|, i requires 0 <= i < |ts| => m[ts[i]]) }

  lemma {:induction false} ListedTargets(k: Key, ts: seq<TargetId>, s: set<TargetId>, m: map<TargetId, U128>, cs: seq<Credit>)
    requires Enumerates(ts, s) && s <= m.Keys
    requires forall t | t in m :: m[t] == Total(DamageOn(k, t), cs)
    ensures Sum(DamageList(m, ts)) == Total(DamageOnAny(k, s), cs)
    decreases |ts|
  {
    hide Total;
    if ts == [] {
      assert s == {};
      OnNoneIsZero(k, cs);
    } else {
      EnumeratesTail(ts, s);
      OnAnySplits(k, ts[0], s, cs);
      ListedTargets(k, ts[1..], s - {ts[0]}, m, cs);
      assert DamageList(m, ts)[1..] == DamageList(m, ts[1..]);
    }
  }

  /** A candidate's damage is its direct plus its pet damage, and also the sum over
      its targets in any order. */
  lemma DamageAddsUp(ev: Evidence, e: Encounter, cs: seq<Credit>, k: Key, ts: seq<TargetId>)
    requires Fits(cs) && Occurs(cs, k)
    ensures Tally(ev, e, cs).Some? && k in Tally(ev, e, cs).value
    ensures var o := Tally(ev, e, cs).value[k];
            o.damage == Total(DamageFor(k), cs) == o.direct + o.pet > 0
            && (Enumerates(ts, o.targetDamage.Keys) ==> o.damage == Sum(DamageList(o.targetDamage, ts)))
  {
    hide Total;
    TallyFits(ev, e, cs);
    TallyMatches(ev, e, cs);
    var o := Tally(ev, e, cs).value[k];
    assert Describes(ev, e, o, k, cs);
    DamageIsDirectPlusPet(k, cs);
    OccurringHasDamage(k, cs);
    forall i | 0 <= i < |cs| && KeyOf(cs[i]) == k ensures cs[i].target in o.ranges.Keys {
      assert Strikes(cs, k, cs[i].target);
    }
    OnAnyIsAll(k, o.targetDamage.Keys, cs);
    if Enumerates(ts, o.targetDamage.Keys) {
      ListedTargets(k, ts, o.targetDamage.Keys, o.targetDamage, cs);
    }
  }

  lemma {:induction false} OccurringHasDamage(k: Key, cs: seq<Credit>)
    requires Occurs(cs, k)
    ensures Total(DamageFor(k), cs) > 0
  {
    if KeyOf(cs[|cs| - 1]) != k {
      StrikesPush(cs, k, "");
      OccurringHasDamage(k, cs[..|cs| - 1]);
    }
  }

  // ----- active time of a candidate -----

  function RangeList(m: map<TargetId, Range>, ts: seq<TargetId>): (r: seq<Range>)
    requires forall t | t in ts :: t in m
  { seq(|ts|, i requires 0 <= i < |ts| => m[ts[i]]) }

  /** `active_seconds`: the ranges of all targets, visited in key order. */
  ghost function ActiveSeconds(o: Candidate, bridge: EqSecond): U64 {
    UnionSeconds(RangeList(o.ranges, InOrder(o.ranges.Keys)), bridge)
  }

  lemma {:induction false} RangesOrderFree(m: map<TargetId, Range>, ts: seq<TargetId>, us: seq<TargetId>)
    requires multiset(ts) == multiset(us) && forall t | t in ts :: t in m
    ensures forall t | t in us :: t in m
    ensures multiset(RangeList(m, ts)) == multiset(RangeList(m, us))
    decreases |ts|
  {
    forall t | t in us ensures t in m { assert t in multiset(ts); }
    if ts == [] {
      NothingLeft(us);
    } else {
      hide RangeList;
      var i := TakeOut(ts, us);
      RangesOrderFree(m, ts[..|ts| - 1], us[..i] + us[i + 1..]);
      RangesWithout(m, us, i);
      RangesWithout(m, ts, |ts| - 1);
      assert ts[..|ts| - 1] + ts[|ts|..] == ts[..|ts| - 1];
    }
  }

  lemma RangesWithout(m: map<TargetId, Range>, us: seq<TargetId>, i: nat)
    requires i < |us| && forall t | t in us :: t in m
    ensures forall t | t in us[..i] + us[i + 1..] :: t in m
    ensures multiset(RangeList(m, us)) == multiset(RangeList(m, us[..i] + us[i + 1..])) + multiset{m[us[i]]}
  {
    var qs := RangeList(m, us);
    WithoutOne(qs, i);
    assert RangeList(m, us[..i] + us[i + 1..]) == qs[..i] + qs[i + 1..];
  }

  lemma {:induction false} EnumerationsAgree<T(!new)>(xs: seq<T>, s: set<T>)
    requires Enumerates(xs, s)
    ensures multiset(xs) == multiset(s)
    decreases |xs|
  {
    if xs == [] {
      assert s == {};
    } else {
      EnumeratesTail(xs, s);
      EnumerationsAgree(xs[1..], s - {xs[0]});
      assert xs == [xs[0]] + xs[1..];
      assert s == (s - {xs[0]}) + {xs[0]};
    }
  }

  /** Any order of the targets gives the same active seconds. */
  lemma ActiveOrderFree(o: Candidate, bridge: EqSecond, ts: seq<TargetId>)
    requires Enumerates(ts, o.ranges.Keys)
    ensures UnionSeconds(RangeList(o.ranges, ts), bridge) == ActiveSeconds(o, bridge)
  {
    var us := InOrder(o.ranges.Keys);
    EnumerationsAgree(ts, o.ranges.Keys);
    EnumerationsAgree(us, o.ranges.Keys);
    RangesOrderFree(o.ranges, ts, us);
    UnionSecondsOrderFree(RangeList(o.ranges, ts), RangeList(o.ranges, us), bridge);
  }

  /** The table once every candidate's active seconds are filled in. */
  ghost function Timed(m: map<Key, Candidate>, bridge: EqSecond): map<Key, Candidate> {
    map k | k in m :: m[k].(activeSeconds := ActiveSeconds(m[k], bridge))
  }

  // ----- the election -----

  /** `candidate_cmp` answers Greater; the smaller source id wins a full tie. */
  predicate Outranks(a: Candidate, x: SourceId, b: Candidate, y: SourceId) {
    if a.complete != b.complete then a.complete
    else if a.damage != b.damage then a.damage > b.damage
    else if a.events != b.events then a.events > b.events
    else if |a.targetDamage| != |b.targetDamage| then |a.targetDamage| > |b.targetDamage|
    else if a.activeSeconds != b.activeSeconds then a.activeSeconds > b.activeSeconds
    else !StrLe(y, x)
  }

  lemma OutranksTransitive(a: Candidate, x: SourceId, b: Candidate, y: SourceId, c: Candidate, z: SourceId)
    requires Outranks(a, x, b, y) && Outranks(b, y, c, z)
    ensures Outranks(a, x, c, z)
  {
    if StrLe(z, x) {
      StrLeTotal(x, y);
      if !StrLe(y, x) { StrLeTransitive(z, x, y); }
    }
  }

  lemma OutranksTotal(a: Candidate, x: SourceId, b: Candidate, y: SourceId)
    ensures x != y ==> Outranks(a, x, b, y) || Outranks(b, y, a, x)
    ensures !(Outranks(a, x, b, y) && Outranks(b, y, a, x))
  {
    StrLeTotal(x, y);
    if StrLe(x, y) && StrLe(y, x) { StrLeAntisymmetric(x, y); }
  }

  predicate Authoritative(o: Candidate) { o.personal && o.complete }

  function Options(m: map<Key, Candidate>, p: Participant): set<SourceId> {
    set k | k in m && k.0 == p :: k.1
  }

  function Authorities(m: map<Key, Candidate>, p: Participant): set<SourceId> {
    set k | k in m && k.0 == p && Authoritative(m[k]) :: k.1
  }

  /** What it means to be elected: the first authoritative personal log if there is
      one, otherwise the candidate that outranks all others. */
  ghost predicate Elected(m: map<Key, Candidate>, p: Participant, x: SourceId) {
    (p, x) in m
    && if Authorities(m, p) != {} then x in Authorities(m, p) && forall y | y in Authorities(m, p) :: StrLe(x, y)
       else forall y | y in Options(m, p) && y != x :: Outranks(m[(p, x)], x, m[(p, y)], y)
  }

  lemma ElectedUnique(m: map<Key, Candidate>, p: Participant, x: SourceId, y: SourceId)
    requires Elected(m, p, x) && Elected(m, p, y)
    ensures x == y
  {
    assert x in Options(m, p) && y in Options(m, p);
    if Authorities(m, p) != {} {
      StrLeAntisymmetric(x, y);
    } else if x != y {
      OutranksTotal(m[(p, x)], x, m[(p, y)], y);
    }
  }

  ghost predicate IsTop(m: map<Key, Candidate>, p: Participant, xs: set<SourceId>, x: SourceId)
    requires forall y | y in xs :: (p, y) in m
  {
    x in xs && forall y | y in xs && y != x :: Outranks(m[(p, x)], x, m[(p, y)], y)
  }

  lemma {:induction false} TopExists(m: map<Key, Candidate>, p: Participant, xs: set<SourceId>)
    requires xs != {} && forall x | x in xs :: (p, x) in m
    ensures exists x :: IsTop(m, p, xs, x)
    decreases |xs|
  {
    hide Outranks;
    var pick :| pick in xs;
    var rest := xs - {pick};
    if rest == {} {
      assert forall y | y in xs :: y == pick || y in rest;
      assert IsTop(m, p, xs, pick);
    } else {
      TopExists(m, p, rest);
      var x :| IsTop(m, p, rest, x);
      var top := if Outranks(m[(p, pick)], pick, m[(p, x)], x) then pick else x;
      OutranksTotal(m[(p, pick)], pick, m[(p, x)], x);
      forall y | y in xs && y != top ensures Outranks(m[(p, top)], top, m[(p, y)], y) {
        if y != pick && y != x && top == pick {
          OutranksTransitive(m[(p, pick)], pick, m[(p, x)], x, m[(p, y)], y);
        }
      }
      assert IsTop(m, p, xs, top);
    }
  }

  lemma ElectedExists(m: map<Key, Candidate>, p: Participant)
    requires Options(m, p) != {}
    ensures exists x :: Elected(m, p, x)
  {
    if Authorities(m, p) != {} {
      var x := Least(Authorities(m, p));
      assert Elected(m, p, x);
    } else {
      TopExists(m, p, Options(m, p));
      var x :| IsTop(m, p, Options(m, p), x);
      assert Elected(m, p, x);
    }
  }

  ghost function Winner(m: map<Key, Candidate>, p: Participant): (x: SourceId)
    requires Options(m, p) != {}
    ensures Elected(m, p, x)
  {
    ElectedExists(m, p);
    var x :| Elected(m, p, x);
    x
  }

  function Participants(m: map<Key, Candidate>): set<Participant> { set k | k in m :: k.0 }

  lemma ParticipantHasOptions(m: map<Key, Candidate>, p: Participant)
    ensures p in Participants(m) <==> Options(m, p) != {}
  {
    if p in Participants(m) {
      var k :| k in m && k.0 == p;
      assert k.1 in Options(m, p);
    }
    if Options(m, p) != {} {
      var x :| x in Options(m, p);
      assert (p, x) in m;
    }
  }

  ghost function Winners(m: map<Key, Candidate>): (w: map<Participant, SourceId>)
    ensures w.Keys == Participants(m)
    ensures forall p | p in w :: Elected(m, p, w[p])
    ensures Covers(m, w)
  {
    map p | p in Participants(m) :: (ParticipantHasOptions(m, p); Winner(m, p))
  }

  // ----- raid damage -----

  lemma {:induction false} ElectedSplits(w: map<Participant, SourceId>, p: Participant, cs: seq<Credit>)
    requires p in w
    ensures Total(DamageElected(w), cs) == Total(DamageFor((p, w[p])), cs) + Total(DamageElected(w - {p}), cs)
  { if cs != [] { ElectedSplits(w, p, cs[..|cs| - 1]); } }

  lemma {:induction false} NoneElected(w: map<Participant, SourceId>, cs: seq<Credit>)
    requires w == map[]
    ensures Total(DamageElected(w), cs) == 0
  { if cs != [] { NoneElected(w, cs[..|cs| - 1]); } }

  /** The damages of the elected candidates, in the order of `ps`. */
  function ElectedDamages(m: map<Key, Candidate>, w: map<Participant, SourceId>, ps: seq<Participant>): (r: seq<nat>)
    requires forall p | p in ps :: p in w && (p, w[p]) in m
  { seq(|ps|, i requires 0 <= i < |ps| => m[(ps[i], w[ps[i]])].damage) }

  lemma {:induction false} RaidIsSum(m: map<Key, Candidate>, w: map<Participant, SourceId>, ps: seq<Participant>, cs: seq<Credit>)
    requires Enumerates(ps, w.Keys) && forall p | p in w :: (p, w[p]) in m
    requires forall k | k in m :: m[k].damage == Total(DamageFor(k), cs)
    ensures Sum(ElectedDamages(m, w, ps)) == Total(DamageElected(w), cs)
    decreases |ps|
  {
    hide Total;
    if ps == [] {
      assert w.Keys == {};
      NoneElected(w, cs);
    } else {
      EnumeratesTail(ps, w.Keys);
      ElectedSplits(w, ps[0], cs);
      assert (w - {ps[0]}).Keys == w.Keys - {ps[0]};
      RaidIsSum(m, w - {ps[0]}, ps[1..], cs);
      assert ElectedDamages(m, w, ps)[1..] == ElectedDamages(m, w - {ps[0]}, ps[1..]);
    }
  }

  // ----- the published snapshot -----

  /** A client of ours plays the participant, or did when the encounter was live. */
  predicate IsManaged(ev: Evidence, e: Encounter, p: Participant) {
    p in e.managed || exists x | x in ev.sources :: Personal(ev.sources[x].source) == p
  }

  function QualityOf(o: Candidate): SourceQuality {
    if o.provisional then ProvisionalPet
    else if o.personal && o.complete then AuthoritativePersonal
    else if o.complete then CompleteObserver
    else if o.personal then IncompletePersonal
    else BestPartialObserver
  }

  function RowOf(o: Candidate, x: SourceId, managed: bool, encounterSeconds: U64, raid: U128): Row {
    var active := Max(o.activeSeconds, 1);
    Row(managed, o.hasPet, o.provisional, o.damage, active, RoundRate(o.damage, active).value,
        RoundRate(o.damage, encounterSeconds).value, Share(o.damage, raid), QualityOf(o), x)
  }

  predicate Covers(m: map<Key, Candidate>, w: map<Participant, SourceId>) { forall p | p in w :: (p, w[p]) in m }

  function Rows(ev: Evidence, e: Encounter, m: map<Key, Candidate>, w: map<Participant, SourceId>, raid: U128): map<Participant, Row>
    requires Covers(m, w)
  { map p | p in w :: RowOf(m[(p, w[p])], w[p], IsManaged(ev, e, p), InclusiveSeconds(e.startEq, e.endEq), raid) }

  function Assemble(ev: Evidence, e: Encounter, m: map<Key, Candidate>, w: map<Participant, SourceId>, raid: nat): Option<Snapshot>
    requires Covers(m, w)
  {
    if w == map[] || raid == 0 || raid >= U128_LIMIT then None
    else Some(Snapshot(
      e.id,
      if e.phase.Active? then None else Some(e.phase.reason),
      if e.phase.Held? then Some(e.phase.until) else None,
      InclusiveSeconds(e.startEq, e.endEq), raid, Rows(ev, e, m, w, raid), e.sources, e.lastSustainEq))
  }

  /** What the encounter's eligible credits publish, `cs` being all of them. */
  ghost function Published(ev: Evidence, e: Encounter, cs: seq<Credit>, t: map<Key, Candidate>): Option<Snapshot> {
    var m := Timed(t, ev.policy.bridgeSeconds);
    Assemble(ev, e, m, Winners(m), Total(DamageElected(Winners(m)), cs))
  }

  /** `compute_snapshot`. */
  ghost function SnapshotOf(ev: Evidence, e: Encounter): Option<Snapshot> {
    if !InLedger(ev, e.facts) then None
    else
      var cs := Credits(ev, e, e.facts);
      match Tally(ev, e, cs)
      case None => None
      case Some(t) => Published(ev, e, cs, t)
  }

  function RowDamages(rows: map<Participant, Row>, ps: seq<Participant>): (r: seq<nat>)
    requires forall p | p in ps :: p in rows
  { seq(|ps|, i requires 0 <= i < |ps| => rows[ps[i]].damage) }

  function RowShares(rows: map<Participant, Row>, ps: seq<Participant>): (r: seq<nat>)
    requires forall p | p in ps :: p in rows
  { seq(|ps|, i requires 0 <= i < |ps| => rows[ps[i]].contribution) }

  function ElectedSources(rows: map<Participant, Row>): map<Participant, SourceId> {
    map p | p in rows :: rows[p].elected
  }

  lemma TimedMatches(ev: Evidence, e: Encounter, cs: seq<Credit>)
    requires Tally(ev, e, cs).Some?
    ensures var m := Timed(Tally(ev, e, cs).value, ev.policy.bridgeSeconds);
            (forall k :: k in m <==> Occurs(cs, k))
            && forall k | k in m :: m[k].damage == Total(DamageFor(k), cs) && m[k].damage > 0
                                    && m[k].complete == Complete(ev, e, k.1)
  {
    hide Total, Complete;
    TallyMatches(ev, e, cs);
    var t := Tally(ev, e, cs).value;
    forall k | k in t ensures t[k].damage == Total(DamageFor(k), cs) > 0 {
      assert Describes(ev, e, t[k], k, cs);
      OccurringHasDamage(k, cs);
    }
  }

  lemma RowsAddUp(ev: Evidence, e: Encounter, m: map<Key, Candidate>, w: map<Participant, SourceId>, ps: seq<Participant>, cs: seq<Credit>, raid: U128)
    requires Covers(m, w) && Enumerates(ps, w.Keys)
    requires forall k | k in m :: m[k].damage == Total(DamageFor(k), cs)
    requires raid == Total(DamageElected(w), cs) > 0
    ensures var rows := Rows(ev, e, m, w, raid);
            Sum(RowDamages(rows, ps)) == raid && 1_000_000 - |ps| < Sum(RowShares(rows, ps)) <= 1_000_000
  {
    hide Total, RoundRate, InclusiveSeconds;
    var rows := Rows(ev, e, m, w, raid);
    RaidIsSum(m, w, ps, cs);
    assert RowDamages(rows, ps) == ElectedDamages(m, w, ps);
    SharesNearlyWhole(RowDamages(rows, ps));
    assert RowShares(rows, ps) == Shares(RowDamages(rows, ps), raid);
  }

  lemma EveryCreditHasARow(m: map<Key, Candidate>, cs: seq<Credit>, i: nat)
    requires i < |cs| && forall k :: k in m <==> Occurs(cs, k)
    ensures cs[i].participant in Winners(m)
  {
    assert Occurs(cs, KeyOf(cs[i]));
    assert KeyOf(cs[i]) in m;
  }

  /** The published numbers in terms of the eligible credits alone. */
  ghost predicate Accounts(r: Snapshot, cs: seq<Credit>) {
    r.raidDamage == Total(DamageElected(ElectedSources(r.rows)), cs) > 0
    && (forall i | 0 <= i < |cs| :: cs[i].participant in r.rows)
    && forall p | p in r.rows :: Occurs(cs, (p, r.rows[p].elected))
                                 && r.rows[p].damage == Total(DamageFor((p, r.rows[p].elected)), cs) > 0
  }

  lemma AssembledAccounts(ev: Evidence, e: Encounter, m: map<Key, Candidate>, cs: seq<Credit>)
    requires forall k :: k in m <==> Occurs(cs, k)
    requires forall k | k in m :: m[k].damage == Total(DamageFor(k), cs) && m[k].damage > 0
    ensures var r := Assemble(ev, e, m, Winners(m), Total(DamageElected(Winners(m)), cs));
            r.Some? ==> Accounts(r.value, cs)
  {
    hide Total, RoundRate, InclusiveSeconds, Elected, Occurs;
    var w := Winners(m);
    var r := Assemble(ev, e, m, w, Total(DamageElected(w), cs));
    if r.Some? {
      assert ElectedSources(r.value.rows) == w;
      forall i | 0 <= i < |cs| ensures cs[i].participant in w { EveryCreditHasARow(m, cs, i); }
    }
  }

  /** No damage is counted twice or lost: the raid damage is the total over exactly
      the eligible facts whose log is the elected one of their participant, every
      such participant has one row holding its elected log's total, and rows and
      contributions add up whatever the order of the rows. */
  lemma NoDoubleCounting(ev: Evidence, e: Encounter, ps: seq<Participant>)
    requires SnapshotOf(ev, e).Some? && Enumerates(ps, SnapshotOf(ev, e).value.rows.Keys)
    ensures var r := SnapshotOf(ev, e).value;
            Accounts(r, Credits(ev, e, e.facts)) && Sum(RowDamages(r.rows, ps)) == r.raidDamage
            && 1_000_000 - |ps| < Sum(RowShares(r.rows, ps)) <= 1_000_000
  {
    hide Total, Tally, Credits, RowOf, InclusiveSeconds, Accounts, Timed, Elected, Complete, Occurs, Sum;
    var cs := Credits(ev, e, e.facts);
    var m := Timed(Tally(ev, e, cs).value, ev.policy.bridgeSeconds);
    var w := Winners(m);
    TimedMatches(ev, e, cs);
    AssembledAccounts(ev, e, m, cs);
    assert Rows(ev, e, m, w, SnapshotOf(ev, e).value.raidDamage).Keys == w.Keys;
    RowsAddUp(ev, e, m, w, ps, cs, SnapshotOf(ev, e).value.raidDamage);
  }

  lemma SomeoneIsElected(m: map<Key, Candidate>, cs: seq<Credit>)
    requires (forall k :: k in m <==> Occurs(cs, k)) && forall k | k in m :: m[k].damage == Total(DamageFor(k), cs) && m[k].damage > 0
    ensures cs != [] <==> Winners(m) != map[]
    ensures cs != [] ==> Total(DamageElected(Winners(m)), cs) > 0
  {
    hide Total;
    var w := Winners(m);
    if cs != [] {
      EveryCreditHasARow(m, cs, 0);
      var p := cs[0].participant;
      assert Elected(m, p, w[p]);
      ElectedSplits(w, p, cs);
    } else {
      assert forall k :: k !in m;
      assert w.Keys == {};
    }
  }

  /** A snapshot is published exactly when some fact is eligible. */
  lemma PublishesIffEligible(ev: Evidence, e: Encounter)
    requires InLedger(ev, e.facts) && |e.facts| < U64_LIMIT
    ensures SnapshotOf(ev, e).Some? <==> Credits(ev, e, e.facts) != []
  {
    hide Total, Credits, Complete, Tally, Timed, RowOf, Rows, Winners, InclusiveSeconds;
    var cs := Credits(ev, e, e.facts);
    FewFactsFit(cs);
    TallyFits(ev, e, cs);
    TimedMatches(ev, e, cs);
    var m := Timed(Tally(ev, e, cs).value, ev.policy.bridgeSeconds);
    TotalBound(DamageElected(Winners(m)), cs);
    MulLe(|cs|, U64_MAX, U64_MAX);
    SomeoneIsElected(m, cs);
  }

  // ----- the order of the fact list does not matter -----

  /** The credits of one candidate agree on whether the log is the participant's own; a
      source that changes its character can break this. */
  ghost predicate OneStanding(cs: seq<Credit>) {
    forall i, j | 0 <= i < |cs| && 0 <= j < |cs| && KeyOf(cs[i]) == KeyOf(cs[j]) ::
      (cs[i].participant == Personal(cs[i].source)) == (cs[j].participant == Personal(cs[j].source))
  }

  lemma {:induction false} CreditsComeFromFacts(ev: Evidence, e: Encounter, facts: seq<nat>, i: nat)
    requires InLedger(ev, facts) && i < |Credits(ev, e, facts)|
    ensures exists j :: 0 <= j < |facts| && Classify(ev, e, ev.ledger[facts[j]]) == Some(Credits(ev, e, facts)[i])
  {
    hide Classify;
    var last := facts[|facts| - 1];
    var before := facts[..|facts| - 1];
    if i < |Credits(ev, e, before)| {
      CreditsComeFromFacts(ev, e, before, i);
      var j :| 0 <= j < |before| && Classify(ev, e, ev.ledger[before[j]]) == Some(Credits(ev, e, before)[i]);
      assert facts[j] == before[j];
    } else {
      assert Classify(ev, e, ev.ledger[last]) == Some(Credits(ev, e, facts)[i]) && facts[|facts| - 1] == last;
    }
  }

  lemma CreditsConcat(ev: Evidence, e: Encounter, a: seq<nat>, b: seq<nat>)
    requires InLedger(ev, a) && InLedger(ev, b)
    ensures Credits(ev, e, a + b) == Credits(ev, e, a) + Credits(ev, e, b)
  {
    hide Classify;
    if b == [] {
      assert a + b == a;
    } else {
      CreditsConcat(ev, e, a, b[..|b| - 1]);
      assert (a + b)[..|a + b| - 1] == a + b[..|b| - 1];
    }
  }

  lemma CreditsSplitAt(ev: Evidence, e: Encounter, b: seq<nat>, i: nat)
    requires InLedger(ev, b) && i < |b|
    ensures multiset(Credits(ev, e, b))
         == multiset(Credits(ev, e, b[..i] + b[i + 1..])) + multiset(Credits(ev, e, [b[i]]))
  {
    hide Credits;
    CreditsConcat(ev, e, b[..i], b[i + 1..]);
    CreditsConcat(ev, e, b[..i], [b[i]]);
    CreditsConcat(ev, e, b[..i] + [b[i]], b[i + 1..]);
    assert b == b[..i] + [b[i]] + b[i + 1..];
  }

  lemma {:induction false} CreditsOrderFree(ev: Evidence, e: Encounter, f: seq<nat>, g: seq<nat>)
    requires InLedger(ev, f) && InLedger(ev, g) && multiset(f) == multiset(g)
    ensures multiset(Credits(ev, e, f)) == multiset(Credits(ev, e, g))
    decreases |f|
  {
    if f == [] {
      NothingLeft(g);
    } else {
      hide Credits, InLedger;
      var i := TakeOut(f, g);
      StillInLedger(ev, g, i);
      StillInLedger(ev, f, |f| - 1);
      CreditsOrderFree(ev, e, f[..|f| - 1], g[..i] + g[i + 1..]);
      CreditsSplitAt(ev, e, g, i);
      CreditsSplitAt(ev, e, f, |f| - 1);
    }
  }

  lemma StillInLedger(ev: Evidence, g: seq<nat>, i: nat)
    requires InLedger(ev, g) && i < |g|
    ensures InLedger(ev, g[..i] + g[i + 1..])
    ensures i == |g| - 1 ==> g[..i] + g[i + 1..] == g[..i]
  {}

  /** Equal in everything the election reads. */
  predicate SameStanding(a: Candidate, b: Candidate) {
    SameButActive(a, b) && a.activeSeconds == b.activeSeconds
  }

  predicate SameButActive(a: Candidate, b: Candidate) {
    a.complete == b.complete && a.personal == b.personal && a.damage == b.damage && a.events == b.events
    && a.ranges == b.ranges && a.targetDamage == b.targetDamage
  }

  predicate SameTables(m: map<Key, Candidate>, n: map<Key, Candidate>) {
    m.Keys == n.Keys && forall k | k in m :: SameStanding(m[k], n[k])
  }

  lemma SameOccurrence(cs: seq<Credit>, ds: seq<Credit>, k: Key, t: TargetId)
    requires multiset(cs) == multiset(ds)
    ensures Occurs(cs, k) ==> Occurs(ds, k)
    ensures Strikes(cs, k, t) ==> Strikes(ds, k, t)
  {
    if Occurs(cs, k) {
      var i :| 0 <= i < |cs| && KeyOf(cs[i]) == k;
      assert cs[i] in multiset(ds);
      var j :| 0 <= j < |ds| && ds[j] == cs[i];
    }
    if Strikes(cs, k, t) {
      var i :| 0 <= i < |cs| && KeyOf(cs[i]) == k && cs[i].target == t;
      assert cs[i] in multiset(ds);
      var j :| 0 <= j < |ds| && ds[j] == cs[i];
    }
  }

  lemma SameTargets(k: Key, a: Candidate, b: Candidate, cs: seq<Credit>, ds: seq<Credit>)
    requires multiset(cs) == multiset(ds) && TargetTotals(a, k, cs) && TargetTotals(b, k, ds)
    ensures a.ranges == b.ranges && a.targetDamage == b.targetDamage
  {
    hide Strikes, Spans, Total;
    forall t ensures t in a.ranges <==> t in b.ranges {
      SameOccurrence(cs, ds, k, t); SameOccurrence(ds, cs, k, t);
    }
    forall t | t in a.ranges ensures a.ranges[t] == b.ranges[t] && a.targetDamage[t] == b.targetDamage[t] {
      SpansUnique(a.ranges[t], b.ranges[t], cs, ds, k, t);
      TotalOrderFree(DamageOn(k, t), cs, ds);
    }
  }

  lemma SameFlags(ev: Evidence, e: Encounter, k: Key, a: Candidate, b: Candidate, cs: seq<Credit>, ds: seq<Credit>)
    requires multiset(cs) == multiset(ds) && OneStanding(cs) && Flags(ev, e, a, k, cs) && Flags(ev, e, b, k, ds)
    ensures a.complete == b.complete && a.personal == b.personal
  {
    hide Complete;
    var i :| 0 <= i < |cs| && KeyOf(cs[i]) == k && a.personal == (k.0 == Personal(cs[i].source));
    var j :| 0 <= j < |ds| && KeyOf(ds[j]) == k && b.personal == (k.0 == Personal(ds[j].source));
    assert ds[j] in multiset(cs);
    var j' :| 0 <= j' < |cs| && cs[j'] == ds[j];
  }

  lemma TallyOrderFree(ev: Evidence, e: Encounter, cs: seq<Credit>, ds: seq<Credit>)
    requires multiset(cs) == multiset(ds) && OneStanding(cs)
    ensures Tally(ev, e, cs).Some? <==> Tally(ev, e, ds).Some?
    ensures Tally(ev, e, cs).Some? ==>
              var b := ev.policy.bridgeSeconds;
              SameTables(Timed(Tally(ev, e, cs).value, b), Timed(Tally(ev, e, ds).value, b))
  {
    hide Total, Tally, TargetTotals, Flags, Occurs;
    TallyFits(ev, e, cs); TallyFits(ev, e, ds);
    TallyMatches(ev, e, cs); TallyMatches(ev, e, ds);
    forall k ensures Total(DamageFor(k), cs) == Total(DamageFor(k), ds) && Total(EventsFor(k), cs) == Total(EventsFor(k), ds) {
      TotalOrderFree(DamageFor(k), cs, ds); TotalOrderFree(EventsFor(k), cs, ds);
    }
    if Fits(cs) {
      var m, n := Tally(ev, e, cs).value, Tally(ev, e, ds).value;
      forall k ensures k in m <==> k in n { SameOccurrence(cs, ds, k, ""); SameOccurrence(ds, cs, k, ""); }
      forall k | k in m ensures SameButActive(m[k], n[k]) {
        assert Describes(ev, e, m[k], k, cs) && Describes(ev, e, n[k], k, ds);
        SameTargets(k, m[k], n[k], cs, ds);
        SameFlags(ev, e, k, m[k], n[k], cs, ds);
      }
    }
  }

  lemma SameElected(m: map<Key, Candidate>, n: map<Key, Candidate>, p: Participant, x: SourceId)
    requires SameTables(m, n) && Elected(m, p, x)
    ensures Elected(n, p, x)
  {
    assert Authorities(m, p) == Authorities(n, p);
    assert Options(m, p) == Options(n, p);
    forall y | y in Options(n, p) ensures Outranks(m[(p, x)], x, m[(p, y)], y) <==> Outranks(n[(p, x)], x, n[(p, y)], y) {
      assert SameStanding(m[(p, y)], n[(p, y)]) && SameStanding(m[(p, x)], n[(p, x)]);
    }
  }

  lemma SameWinners(m: map<Key, Candidate>, n: map<Key, Candidate>)
    requires SameTables(m, n)
    ensures Winners(m) == Winners(n)
  {
    hide Elected;
    assert Participants(m) == Participants(n);
    forall p | p in Participants(m) ensures Winners(m)[p] == Winners(n)[p] {
      SameElected(m, n, p, Winners(m)[p]);
      ElectedUnique(n, p, Winners(m)[p], Winners(n)[p]);
    }
  }

  /** The row without the marks that follow the order of its credits. */
  function Unmarked(r: Row): Row { r.(hasPet := false, provisional := false, quality := BestPartialObserver) }

  predicate SameNumbers(a: map<Participant, Row>, b: map<Participant, Row>) {
    a.Keys == b.Keys && forall p | p in a :: Unmarked(a[p]) == Unmarked(b[p])
  }

  /** Equal but for the marks of rows. */
  predicate SameSnapshot(a: Option<Snapshot>, b: Option<Snapshot>) {
    a.Some? == b.Some? && (a.Some? ==> SameNumbers(a.value.rows, b.value.rows) && a.value.(rows := map[]) == b.value.(rows := map[]))
  }

  lemma SameRows(ev: Evidence, e: Encounter, m: map<Key, Candidate>, n: map<Key, Candidate>, w: map<Participant, SourceId>, raid: U128)
    requires SameTables(m, n) && Covers(m, w) && Covers(n, w)
    ensures SameNumbers(Rows(ev, e, m, w, raid), Rows(ev, e, n, w, raid))
  {
    hide RoundRate, InclusiveSeconds, IsManaged;
    forall p | p in w ensures SameStanding(m[(p, w[p])], n[(p, w[p])]) {}
  }

  lemma PublishedOrderFree(ev: Evidence, e: Encounter, cs: seq<Credit>, ds: seq<Credit>, t: map<Key, Candidate>, u: map<Key, Candidate>)
    requires multiset(cs) == multiset(ds)
    requires SameTables(Timed(t, ev.policy.bridgeSeconds), Timed(u, ev.policy.bridgeSeconds))
    ensures SameSnapshot(Published(ev, e, cs, t), Published(ev, e, ds, u))
  {
    hide Total, Timed, InclusiveSeconds, Winners, SameTables, Rows, SameNumbers;
    var m, n := Timed(t, ev.policy.bridgeSeconds), Timed(u, ev.policy.bridgeSeconds);
    SameWinners(m, n);
    var raid := Total(DamageElected(Winners(m)), cs);
    TotalOrderFree(DamageElected(Winners(m)), cs, ds);
    if raid < U128_LIMIT { SameRows(ev, e, m, n, Winners(m), raid); }
  }

  lemma ClassifyIgnoresList(ev: Evidence, e: Encounter, g: seq<nat>, fact: LedgerFact)
    ensures Classify(ev, e.(facts := g), fact) == Classify(ev, e, fact)
  {
    assert Comparison(ev, e.(facts := g)) == Comparison(ev, e) by {
      assert forall x :: Complete(ev, e.(facts := g), x) == Complete(ev, e, x);
    }
    assert WithinWatermark(ev, e.(facts := g), fact.eqTime) == WithinWatermark(ev, e, fact.eqTime);
  }

  lemma {:induction false} CreditsIgnoreList(ev: Evidence, e: Encounter, g: seq<nat>, facts: seq<nat>)
    requires InLedger(ev, facts)
    ensures Credits(ev, e.(facts := g), facts) == Credits(ev, e, facts)
  {
    if facts != [] {
      hide Classify;
      CreditsIgnoreList(ev, e, g, facts[..|facts| - 1]);
      ClassifyIgnoresList(ev, e, g, ev.ledger[facts[|facts| - 1]]);
    }
  }

  lemma {:induction false} TallyIgnoresList(ev: Evidence, e: Encounter, g: seq<nat>, cs: seq<Credit>)
    ensures Tally(ev, e.(facts := g), cs) == Tally(ev, e, cs)
  {
    if cs != [] {
      hide AddCredit;
      TallyIgnoresList(ev, e, g, cs[..|cs| - 1]);
    }
  }

  /** The snapshot published for a list does not look at the list again. */
  lemma PublishedIgnoresList(ev: Evidence, e: Encounter, g: seq<nat>, cs: seq<Credit>, t: map<Key, Candidate>)
    ensures Published(ev, e.(facts := g), cs, t) == Published(ev, e, cs, t)
  {
    hide Total, Timed, InclusiveSeconds, Winners, RowOf;
    var m := Timed(t, ev.policy.bridgeSeconds);
    var w, raid := Winners(m), Total(DamageElected(Winners(m)), cs);
    assert forall p :: IsManaged(ev, e.(facts := g), p) == IsManaged(ev, e, p);
    if raid < U128_LIMIT { assert Rows(ev, e.(facts := g), m, w, raid) == Rows(ev, e, m, w, raid); }
  }

  /** The credits in the other order are the same ones, and what is published comes from them. */
  lemma Reordered(ev: Evidence, e: Encounter, g: seq<nat>)
    requires InLedger(ev, e.facts) && multiset(g) == multiset(e.facts)
    ensures InLedger(ev, g) && multiset(Credits(ev, e, g)) == multiset(Credits(ev, e, e.facts))
    ensures var ds := Credits(ev, e, g); var u := Tally(ev, e, ds);
            SnapshotOf(ev, e.(facts := g)) == if u.None? then None else Published(ev, e, ds, u.value)
  {
    hide Credits, Tally, Published;
    assert InLedger(ev, g) by {
      forall i | 0 <= i < |g| ensures g[i] < |ev.ledger| { assert g[i] in multiset(e.facts); }
    }
    var ds := Credits(ev, e, g);
    CreditsIgnoreList(ev, e, g, g);
    TallyIgnoresList(ev, e, g, ds);
    CreditsOrderFree(ev, e, e.facts, g);
    if Tally(ev, e, ds).Some? { PublishedIgnoresList(ev, e, g, ds, Tally(ev, e, ds).value); }
  }

  /** Reordering an encounter's fact list changes neither the elected logs nor any
      published number: the snapshots differ at most in the pet marks of rows. */
  lemma ElectionOrderFree(ev: Evidence, e: Encounter, g: seq<nat>)
    requires InLedger(ev, e.facts) && OneStanding(Credits(ev, e, e.facts)) && multiset(g) == multiset(e.facts)
    ensures SameSnapshot(SnapshotOf(ev, e.(facts := g)), SnapshotOf(ev, e))
  {
    hide Credits, Tally, Published, SameTables;
    Reordered(ev, e, g);
    var cs, ds := Credits(ev, e, e.facts), Credits(ev, e, g);
    TallyOrderFree(ev, e, cs, ds);
    if Tally(ev, e, cs).Some? {
      PublishedOrderFree(ev, e, cs, ds, Tally(ev, e, cs).value, Tally(ev, e, ds).value);
      SameSnapshotSymmetric(Published(ev, e, cs, Tally(ev, e, cs).value), Published(ev, e, ds, Tally(ev, e, ds).value));
    }
  }

  lemma SameSnapshotSymmetric(a: Option<Snapshot>, b: Option<Snapshot>)
    requires SameSnapshot(a, b)
    ensures SameSnapshot(b, a)
  {}

  // ----- the computation -----

  /** What the fact at position `i` does to the table. */
  lemma GatherStep(ev: Evidence, e: Encounter, facts: seq<nat>, i: nat)
    requires i < |facts| && InLedger(ev, facts[..i]) && facts[i] < |ev.ledger|
    ensures InLedger(ev, facts[..i + 1])
    ensures var c := Classify(ev, e, ev.ledger[facts[i]]);
            var t := Tally(ev, e, Credits(ev, e, facts[..i]));
            Tally(ev, e, Credits(ev, e, facts[..i + 1])) ==
              if c.None? || t.None? then t else AddCredit(t.value, c.value, Complete(ev, e, c.value.source.id))
  {
    hide Classify, Complete, AddCredit;
    assert facts[..i + 1][..i] == facts[..i] && facts[..i + 1][i] == facts[i];
    var c := Classify(ev, e, ev.ledger[facts[i]]);
    if c.Some? {
      var before := Credits(ev, e, facts[..i]);
      assert (before + [c.value])[..|before|] == before;
    }
  }

  /** The fact loop of `elect`. */
  method Gather(ev: Evidence, e: Encounter) returns (r: Option<map<Key, Candidate>>)
    ensures r == if InLedger(ev, e.facts) then Tally(ev, e, Credits(ev, e, e.facts)) else None
  {
    hide Classify, Complete, AddCredit, Tally, Credits;
    var m: map<Key, Candidate> := map[];
    NoFactsNoTable(ev, e);
    for i := 0 to |e.facts|
      invariant InLedger(ev, e.facts[..i])
      invariant Tally(ev, e, Credits(ev, e, e.facts[..i])) == Some(m)
    {
      if e.facts[i] >= |ev.ledger| { return None; }
      GatherStep(ev, e, e.facts, i);
      var c := Classify(ev, e, ev.ledger[e.facts[i]]);
      if c.Some? {
        var n := AddCredit(m, c.value, Complete(ev, e, c.value.source.id));
        if n.None? {
          if InLedger(ev, e.facts) { GatherStays(ev, e, i + 1); }
          return None;
        }
        m := n.value;
      }
    }
    assert e.facts[..|e.facts|] == e.facts;
    r := Some(m);
  }

  lemma NoFactsNoTable(ev: Evidence, e: Encounter)
    ensures InLedger(ev, e.facts[..0]) && Tally(ev, e, Credits(ev, e, e.facts[..0])) == Some(map[])
  {}

  /** Once a counter has overflowed, later facts cannot undo it. */
  lemma {:induction false} TallyStays(ev: Evidence, e: Encounter, a: seq<Credit>, b: seq<Credit>)
    requires Tally(ev, e, a).None?
    ensures Tally(ev, e, a + b).None?
  {
    if b == [] {
      assert a + b == a;
    } else {
      hide AddCredit, Complete;
      TallyStays(ev, e, a, b[..|b| - 1]);
      assert (a + b)[..|a + b| - 1] == a + b[..|b| - 1];
    }
  }

  lemma GatherStays(ev: Evidence, e: Encounter, i: nat)
    requires i <= |e.facts| && InLedger(ev, e.facts) && Tally(ev, e, Credits(ev, e, e.facts[..i])).None?
    ensures Tally(ev, e, Credits(ev, e, e.facts)).None?
  {
    hide Tally, Credits;
    assert e.facts == e.facts[..i] + e.facts[i..];
    CreditsConcat(ev, e, e.facts[..i], e.facts[i..]);
    TallyStays(ev, e, Credits(ev, e, e.facts[..i]), Credits(ev, e, e.facts[i..]));
  }

  /** One candidate's active seconds, visiting its ranges in any order. */
  method ActiveTime(o: Candidate, bridge: EqSecond) returns (n: U64)
    ensures n == ActiveSeconds(o, bridge)
  {
    var ts: seq<TargetId>, rest := [], o.ranges.Keys;
    while rest != {}
      invariant rest <= o.ranges.Keys && Enumerates(ts, o.ranges.Keys - rest)
      decreases |rest|
    {
      var t :| t in rest;
      ts, rest := ts + [t], rest - {t};
    }
    assert o.ranges.Keys - rest == o.ranges.Keys;
    n := UnionRangeSeconds(RangeList(o.ranges, ts), bridge);
    ActiveOrderFree(o, bridge, ts);
  }

  method FillActive(m: map<Key, Candidate>, bridge: EqSecond) returns (r: map<Key, Candidate>)
    ensures r == Timed(m, bridge)
  {
    hide ActiveSeconds;
    r := map[];
    var rest := m.Keys;
    while rest != {}
      invariant rest <= m.Keys && r.Keys == m.Keys - rest
      invariant forall k | k in r :: r[k] == m[k].(activeSeconds := ActiveSeconds(m[k], bridge))
      decreases |rest|
    {
      var k :| k in rest;
      var n := ActiveTime(m[k], bridge);
      r, rest := r[k := m[k].(activeSeconds := n)], rest - {k};
    }
  }

  /** The sources holding a candidate for `p`, by increasing id. */
  predicate Lists(m: map<Key, Candidate>, p: Participant, options: seq<SourceId>) {
    (forall i | 0 <= i < |options| :: (p, options[i]) in m)
    && (forall y | y in Options(m, p) :: y in options)
    && forall i, j | 0 <= i < j < |options| :: StrLe(options[i], options[j]) && options[i] != options[j]
  }

  /** The winner of one participant's options, listed by increasing source id. */
  method PickWinner(m: map<Key, Candidate>, p: Participant, options: seq<SourceId>) returns (x: SourceId)
    requires options != [] && Lists(m, p, options)
    ensures Elected(m, p, x)
  {
    hide Outranks;
    for i := 0 to |options|
      invariant forall j | 0 <= j < i :: !Authoritative(m[(p, options[j])])
    {
      if Authoritative(m[(p, options[i])]) {
        FirstAuthorityElected(m, p, options, i);
        return options[i];
      }
    }
    var best := 0;
    for i := 1 to |options|
      invariant best < i
      invariant forall j | 0 <= j < i && j != best ::
        Outranks(m[(p, options[best])], options[best], m[(p, options[j])], options[j])
    {
      OutranksTotal(m[(p, options[i])], options[i], m[(p, options[best])], options[best]);
      if Outranks(m[(p, options[i])], options[i], m[(p, options[best])], options[best]) {
        forall j | 0 <= j < i && j != best
          ensures Outranks(m[(p, options[i])], options[i], m[(p, options[j])], options[j]) {
          OutranksTransitive(m[(p, options[i])], options[i], m[(p, options[best])], options[best], m[(p, options[j])], options[j]);
        }
        best := i;
      }
    }
    x := options[best];
    TopOptionElected(m, p, options, best);
  }

  lemma TopOptionElected(m: map<Key, Candidate>, p: Participant, options: seq<SourceId>, best: nat)
    requires best < |options| && Lists(m, p, options)
    requires forall j | 0 <= j < |options| :: !Authoritative(m[(p, options[j])])
    requires forall j | 0 <= j < |options| && j != best ::
               Outranks(m[(p, options[best])], options[best], m[(p, options[j])], options[j])
    ensures Elected(m, p, options[best])
  {
    hide Outranks, Authoritative;
    var x := options[best];
    forall y | y in Options(m, p) ensures !Authoritative(m[(p, y)]) {
      var j :| 0 <= j < |options| && options[j] == y;
    }
    assert Authorities(m, p) <= Options(m, p);
    forall y | y in Options(m, p) && y != x ensures Outranks(m[(p, x)], x, m[(p, y)], y) {
      var j :| 0 <= j < |options| && options[j] == y;
    }
  }

  lemma FirstAuthorityElected(m: map<Key, Candidate>, p: Participant, options: seq<SourceId>, i: nat)
    requires i < |options| && Lists(m, p, options)
    requires Authoritative(m[(p, options[i])]) && forall j | 0 <= j < i :: !Authoritative(m[(p, options[j])])
    ensures Elected(m, p, options[i])
  {
    hide Outranks, Authoritative;
    var x := options[i];
    assert (p, x).0 == p && x in Authorities(m, p);
    forall y | y in Authorities(m, p) ensures StrLe(x, y) {
      assert y in Options(m, p);
      var j :| 0 <= j < |options| && options[j] == y;
      if i == j { StrLeReflexive(x); }
    }
  }

  lemma OptionsListed(m: map<Key, Candidate>, p: Participant, options: seq<SourceId>)
    requires forall y :: y in options <==> y in Options(m, p)
    requires forall i, j | 0 <= i < j < |options| :: StrLe(options[i], options[j]) && options[i] != options[j]
    ensures Lists(m, p, options)
  {
    forall i | 0 <= i < |options| ensures (p, options[i]) in m { assert options[i] in options; }
  }

  /** Keys of a set by increasing source id. */
  method SortSources(xs: set<SourceId>) returns (r: seq<SourceId>)
    ensures forall y :: y in r <==> y in xs
    ensures forall i, j | 0 <= i < j < |r| :: StrLe(r[i], r[j]) && r[i] != r[j]
  {
    r := [];
    var rest := xs;
    while rest != {}
      invariant rest <= xs && forall y :: y in r <==> y in xs - rest
      invariant forall i, y | 0 <= i < |r| && y in rest :: StrLe(r[i], y)
      invariant forall i | 0 <= i < |r| :: r[i] !in rest
      invariant forall i, j | 0 <= i < j < |r| :: StrLe(r[i], r[j]) && r[i] != r[j]
      decreases |rest|
    {
      LeastExists(rest);
      var least :| least in rest && forall y | y in rest :: StrLe(least, y);
      r, rest := r + [least], rest - {least};
    }
  }

  /** The election loop over participants. */
  method ElectAll(m: map<Key, Candidate>) returns (w: map<Participant, SourceId>)
    ensures w == Winners(m)
  {
    hide Elected;
    w := map[];
    var rest := Participants(m);
    while rest != {}
      invariant rest <= Participants(m) && w.Keys == Participants(m) - rest
      invariant forall p | p in w :: w[p] == Winners(m)[p]
      decreases |rest|
    {
      var p :| p in rest;
      ParticipantHasOptions(m, p);
      var options := SortSources(Options(m, p));
      OptionsListed(m, p, options);
      var x := PickWinner(m, p, options);
      ElectedUnique(m, p, x, Winners(m)[p]);
      w, rest := w[p := x], rest - {p};
    }
  }

  /** The checked fold over the winners: it meets the total over credits. */
  method RaidDamage(m: map<Key, Candidate>, w: map<Participant, SourceId>, ghost cs: seq<Credit>) returns (r: Option<U128>)
    requires Covers(m, w) && forall k | k in m :: m[k].damage == Total(DamageFor(k), cs)
    ensures var total := Total(DamageElected(w), cs);
            if total < U128_LIMIT then r == Some(total) else r == None
  {
    hide Total;
    var total: U128, rest := 0, w.Keys;
    assert w - w.Keys == map[];
    NoneElected(w - w.Keys, cs);
    while rest != {}
      invariant rest <= w.Keys && total == Total(DamageElected(w - rest), cs)
      decreases |rest|
    {
      var p :| p in rest;
      RaidStep(w, rest, p, cs);
      if total + m[(p, w[p])].damage >= U128_LIMIT { return None; }
      total, rest := total + m[(p, w[p])].damage, rest - {p};
    }
    assert w - rest == w;
    r := Some(total);
  }

  lemma RaidStep(w: map<Participant, SourceId>, rest: set<Participant>, p: Participant, cs: seq<Credit>)
    requires p in rest && p in w
    ensures Total(DamageElected(w - rest), cs) + Total(DamageFor((p, w[p])), cs)
         == Total(DamageElected(w - (rest - {p})), cs) <= Total(DamageElected(w), cs)
  {
    hide Total;
    var more := w - (rest - {p});
    ElectedSplits(more, p, cs);
    assert more - {p} == w - rest;
    AddingWinnersGrows(w, rest - {p}, cs);
  }

  lemma {:induction false} AddingWinnersGrows(w: map<Participant, SourceId>, rest: set<Participant>, cs: seq<Credit>)
    ensures Total(DamageElected(w - rest), cs) <= Total(DamageElected(w), cs)
  { if cs != [] { AddingWinnersGrows(w, rest, cs[..|cs| - 1]); } }

  method BuildRow(o: Candidate, x: SourceId, managed: bool, seconds: U64, raid: U128) returns (r: Row)
    ensures r == RowOf(o, x, managed, seconds, raid)
  {
    var active: U64 := Max(o.activeSeconds, 1);
    var share := RatioMillionths(o.damage, raid);
    r := Row(managed, o.hasPet, o.provisional, o.damage, active, RoundRate(o.damage, active).value,
             RoundRate(o.damage, seconds).value, share, QualityOf(o), x);
  }

  method BuildRows(ev: Evidence, e: Encounter, m: map<Key, Candidate>, w: map<Participant, SourceId>, raid: U128) returns (rows: map<Participant, Row>)
    requires Covers(m, w)
    ensures rows == Rows(ev, e, m, w, raid)
  {
    hide RowOf;
    rows := map[];
    var rest := w.Keys;
    while rest != {}
      invariant rest <= w.Keys && rows.Keys == w.Keys - rest
      invariant forall p | p in rows :: rows[p] == RowOf(m[(p, w[p])], w[p], IsManaged(ev, e, p), InclusiveSeconds(e.startEq, e.endEq), raid)
      decreases |rest|
    {
      var p :| p in rest;
      var row := BuildRow(m[(p, w[p])], w[p], IsManaged(ev, e, p), InclusiveSeconds(e.startEq, e.endEq), raid);
      rows, rest := rows[p := row], rest - {p};
    }
  }

  /** `compute_snapshot`, with the loops of `elect`. */
  method ComputeSnapshot(ev: Evidence, e: Encounter) returns (r: Option<Snapshot>)
    ensures r == SnapshotOf(ev, e)
  {
    hide Tally, Credits, Timed, Winners, Rows, Complete, InclusiveSeconds, Total;
    var gathered := Gather(ev, e);
    if gathered.None? { return None; }
    ghost var cs := Credits(ev, e, e.facts);
    TimedMatches(ev, e, cs);
    var m := FillActive(gathered.value, ev.policy.bridgeSeconds);
    var w := ElectAll(m);
    if w == map[] { return None; }
    var raid := RaidDamage(m, w, cs);
    if raid.None? || raid.value == 0 { return None; }
    var rows := BuildRows(ev, e, m, w, raid.value);
    r := Some(Snapshot(
      e.id,
      if e.phase.Active? then None else Some(e.phase.reason),
      if e.phase.Held? then Some(e.phase.until) else None,
      InclusiveSeconds(e.startEq, e.endEq), raid.value, rows, e.sources, e.lastSustainEq));
  }
}
