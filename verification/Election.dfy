/** Source election: every participant of an encounter is counted from exactly one
    source. crates/eqcombat/src/engine.rs, `elect` and `compute_snapshot`. */
module Election {
  import opened Foundations
  import opened CombatModel
  import opened Metrics

  type Key = (Participant, SourceId)

  /** The amount of an eligible hit is never zero. */
  type Amount = x: int | 0 < x < 0x1_0000_0000_0000_0000 witness 1

  /** Whose hit it is: the participant's own, that of a pet with a known owner, or that of a
      pet nobody has claimed. */
  datatype Via = Direct | OwnedPet | UnclaimedPet

  /** One eligible damage fact, with who gets it and from which log. */
  datatype Credit = Credit(
    participant: Participant, source: LogSource, target: TargetId, amount: Amount, time: EqSecond,
    via: Via)

  function KeyOf(c: Credit): Key { (c.participant, c.source.id) }

  // ----- which facts count -----

  /** The source was there from the start and has had no gap since. */
  predicate Complete(ev: Evidence, e: Encounter, x: SourceId) {
    x in ev.sources && x in e.continuity && e.continuity[x] == ev.sources[x].continuity
    && x !in e.partial && ev.sources[x].registeredAt <= e.startReceipt
  }

  predicate Lagging(ev: Evidence, e: Encounter, x: SourceId)
    requires x in ev.sources
  {
    ev.sources[x].observed.Some?
    && (exists y | y in e.sources && y in ev.sources :: ev.sources[y].observed.Some?
          && ev.policy.lagEqSeconds <= ev.sources[y].observed.value - ev.sources[x].observed.value <= I64_MAX
          && forall z | z in e.sources && z in ev.sources && ev.sources[z].observed.Some? ::
               ev.sources[z].observed.value <= ev.sources[y].observed.value)
    && SatSub(ev.now, ev.sources[x].lastProgressAt) >= ev.policy.lagReceiptMs
  }

  /** The sources whose closed seconds bound a live comparison. */
  function Comparison(ev: Evidence, e: Encounter): set<SourceId> {
    var complete := set x | x in e.sources && Complete(ev, e, x) && !Lagging(ev, e, x);
    if complete == {} then set x | x in e.sources && x in ev.sources else complete
  }

  /** `comparison_watermark`, as the test it is used for. */
  predicate WithinWatermark(ev: Evidence, e: Encounter, t: EqSecond) {
    if e.phase.Held? then t <= e.endEq
    else
      var xs := Comparison(ev, e);
      if xs == {} then true
      else if |xs| == 1 then
        forall x | x in xs && x in ev.sources ::
          var st := ev.sources[x];
          if st.closedThrough.Some? then t <= st.closedThrough.value
          else if st.observed.Some? then t <= st.observed.value else true
      else if forall x | x in xs && x in ev.sources :: ev.sources[x].closedThrough.Some? then
        forall x | x in xs && x in ev.sources && ev.sources[x].closedThrough.Some? :: t <= ev.sources[x].closedThrough.value
      else t <= Max(e.startEq - 1, I64_MIN)
  }

  /** The body of the election loop up to the candidate update. */
  function Classify(ev: Evidence, e: Encounter, fact: LedgerFact): Option<Credit> {
    if !fact.event.Damage? || !WithinWatermark(ev, e, fact.eqTime) then None
    else
      var d := fact.event;
      var attacker, defender := Resolve(fact.source, d.attacker), Resolve(fact.source, d.defender);
      var target := Target(fact.source, d.defender);
      var owner := if d.owner.Some? then Some(Resolve(fact.source, d.owner.value))
                   else ClaimedOwner(ev.ownership, fact.source.server, Display(fact.source, d.attacker),
                                     Min(e.endEq + 30, I64_MAX));
      var provisional := owner.None? && d.kind == Pet;
      var participant := if owner.Some? then owner.value else attacker;
      var allowed := owner.Some? || provisional || attacker in ev.verified || d.attacker.perspective != Named
                     || PossiblePlayerName(Display(fact.source, d.attacker));
      if d.amount == 0 || d.outcome != Hit || target !in e.targets || defender in ev.verified
         || participant == defender || !allowed then None
      else Some(Credit(participant, fact.source, target, d.amount, fact.eqTime,
                       if owner.Some? then OwnedPet else if provisional then UnclaimedPet else Direct))
  }

  predicate InLedger(ev: Evidence, facts: seq<nat>) { forall i | 0 <= i < |facts| :: facts[i] < |ev.ledger| }

  /** The credits of the given facts, in order. */
  function Credits(ev: Evidence, e: Encounter, facts: seq<nat>): (cs: seq<Credit>)
    requires InLedger(ev, facts)
    ensures |cs| <= |facts|
  {
    if facts == [] then []
    else
      var before := Credits(ev, e, facts[..|facts| - 1]);
      match Classify(ev, e, ev.ledger[facts[|facts| - 1]])
      case None => before
      case Some(c) => before + [c]
  }

  // ----- totals -----

  /** Quantities summed over credits. */
  datatype Measure =
    | DamageFor(k: Key) | DirectFor(k: Key) | PetFor(k: Key) | EventsFor(k: Key)
    | DamageOn(k: Key, t: TargetId) | DamageOnAny(k: Key, ts: set<TargetId>)
    | DamageElected(winners: map<Participant, SourceId>)

  function Weight(m: Measure, c: Credit): nat {
    match m
    case DamageFor(k) => if KeyOf(c) == k then c.amount else 0
    case DirectFor(k) => if KeyOf(c) == k && c.via.Direct? then c.amount else 0
    case PetFor(k) => if KeyOf(c) == k && !c.via.Direct? then c.amount else 0
    case EventsFor(k) => if KeyOf(c) == k then 1 else 0
    case DamageOn(k, t) => if KeyOf(c) == k && c.target == t then c.amount else 0
    case DamageOnAny(k, ts) => if KeyOf(c) == k && c.target in ts then c.amount else 0
    case DamageElected(winners) =>
      if c.participant in winners && winners[c.participant] == c.source.id then c.amount else 0
  }

  function Total(m: Measure, cs: seq<Credit>): nat {
    if cs == [] then 0 else Total(m, cs[..|cs| - 1]) + Weight(m, cs[|cs| - 1])
  }

  lemma {:induction false} TotalConcat(m: Measure, a: seq<Credit>, b: seq<Credit>)
    ensures Total(m, a + b) == Total(m, a) + Total(m, b)
  {
    if b == [] {
      assert a + b == a;
    } else {
      TotalConcat(m, a, b[..|b| - 1]);
      assert (a + b)[..|a + b| - 1] == a + b[..|b| - 1];
    }
  }

  lemma WithoutOne<T>(b: seq<T>, i: nat)
    requires i < |b|
    ensures multiset(b) == multiset(b[..i] + b[i + 1..]) + multiset{b[i]}
  {
    calc {
      multiset(b);
      { assert b == b[..i] + ([b[i]] + b[i + 1..]); }
      multiset(b[..i]) + multiset([b[i]] + b[i + 1..]);
      multiset(b[..i]) + multiset(b[i + 1..]) + multiset{b[i]};
    }
  }

  /** In two orderings of the same items, the last of one can be taken out of the other. */
  lemma TakeOut<T>(a: seq<T>, b: seq<T>) returns (i: nat)
    requires a != [] && multiset(a) == multiset(b)
    ensures i < |b| && b[i] == a[|a| - 1]
    ensures multiset(a[..|a| - 1]) == multiset(b[..i] + b[i + 1..])
  {
    var last := a[|a| - 1];
    assert last in multiset(b);
    i :| 0 <= i < |b| && b[i] == last;
    WithoutOne(b, i);
    WithoutOne(a, |a| - 1);
    assert a[..|a| - 1] + a[|a|..] == a[..|a| - 1];
    assert multiset(a[..|a| - 1]) == multiset(a) - multiset{last};
  }

  lemma NothingLeft<T>(b: seq<T>)
    requires multiset(b) == multiset([])
    ensures b == []
  { assert |multiset(b)| == |b|; }

  lemma TotalSplitAt(m: Measure, b: seq<Credit>, i: nat)
    requires i < |b|
    ensures Total(m, b) == Total(m, b[..i] + b[i + 1..]) + Weight(m, b[i])
  {
    TotalConcat(m, b[..i], b[i + 1..]);
    TotalConcat(m, b[..i + 1], b[i + 1..]);
    assert b == b[..i + 1] + b[i + 1..];
    assert b[..i + 1][..i] == b[..i];
  }

  /** Totals do not depend on the order of the credits. */
  lemma {:induction false} TotalOrderFree(m: Measure, a: seq<Credit>, b: seq<Credit>)
    requires multiset(a) == multiset(b)
    ensures Total(m, a) == Total(m, b)
  {
    if a == [] {
      NothingLeft(b);
    } else {
      var i := TakeOut(a, b);
      TotalOrderFree(m, a[..|a| - 1], b[..i] + b[i + 1..]);
      TotalSplitAt(m, b, i);
    }
  }

  lemma {:induction false} DamageIsDirectPlusPet(k: Key, cs: seq<Credit>)
    ensures Total(DamageFor(k), cs) == Total(DirectFor(k), cs) + Total(PetFor(k), cs)
  { if cs != [] { DamageIsDirectPlusPet(k, cs[..|cs| - 1]); } }

  lemma {:induction false} TotalBound(m: Measure, cs: seq<Credit>)
    ensures Total(m, cs) <= |cs| * U64_MAX
    ensures m.EventsFor? ==> Total(m, cs) <= |cs|
  { if cs != [] { TotalBound(m, cs[..|cs| - 1]); } }

  /** Every other measure is at most the damage of its key. */
  lemma {:induction false} PartAtMostDamage(k: Key, t: TargetId, cs: seq<Credit>)
    ensures Total(DamageOn(k, t), cs) <= Total(DamageFor(k), cs)
  { if cs != [] { PartAtMostDamage(k, t, cs[..|cs| - 1]); } }

  // ----- candidates -----

  datatype Candidate = Candidate(
    complete: bool, personal: bool, provisional: bool, hasPet: bool,
    direct: U128, pet: U128, damage: U128, events: U64,
    ranges: map<TargetId, Range>, targetDamage: map<TargetId, U128>, activeSeconds: U64)

  function Blank(c: Credit, complete: bool): Candidate {
    Candidate(complete, c.participant == Personal(c.source), c.via.UnclaimedPet?, false, 0, 0, 0, 0, map[], map[], 1)
  }

  /** One credit, with every checked addition; None is the source's early return. */
  function Credited(o: Candidate, c: Credit): Option<Candidate> {
    var part := if c.via.Direct? then o.direct else o.pet;
    var hit := if c.target in o.targetDamage then o.targetDamage[c.target] else 0;
    if o.damage + c.amount >= U128_LIMIT || part + c.amount >= U128_LIMIT || o.events + 1 >= U64_LIMIT
       || hit + c.amount >= U128_LIMIT then None
    else Some(o.(damage := o.damage + c.amount,
                 pet := if c.via.Direct? then o.pet else o.pet + c.amount,
                 direct := if c.via.Direct? then o.direct + c.amount else o.direct,
                 hasPet := if c.via.Direct? then o.hasPet else c.via.OwnedPet?,
                 events := o.events + 1,
                 targetDamage := o.targetDamage[c.target := hit + c.amount],
                 ranges := o.ranges[c.target :=
                   if c.target in o.ranges
                   then Range(Min(o.ranges[c.target].begin, c.time), Max(o.ranges[c.target].end, c.time))
                   else Range(c.time, c.time)]))
  }

  function AddCredit(m: map<Key, Candidate>, c: Credit, complete: bool): Option<map<Key, Candidate>> {
    var o := if KeyOf(c) in m then m[KeyOf(c)] else Blank(c, complete);
    match Credited(o, c)
    case None => None
    case Some(n) => Some(m[KeyOf(c) := n])
  }

  /** The candidate table after all credits. */
  function Tally(ev: Evidence, e: Encounter, cs: seq<Credit>): Option<map<Key, Candidate>> {
    if cs == [] then Some(map[])
    else
      match Tally(ev, e, cs[..|cs| - 1])
      case None => None
      case Some(m) => AddCredit(m, cs[|cs| - 1], Complete(ev, e, cs[|cs| - 1].source.id))
  }

  ghost predicate Occurs(cs: seq<Credit>, k: Key) { exists i :: 0 <= i < |cs| && KeyOf(cs[i]) == k }

  ghost predicate Strikes(cs: seq<Credit>, k: Key, t: TargetId) {
    exists i :: 0 <= i < |cs| && KeyOf(cs[i]) == k && cs[i].target == t
  }

  /** The range spans exactly from the first to the last strike on the target. */
  ghost predicate Spans(r: Range, cs: seq<Credit>, k: Key, t: TargetId) {
    (exists i :: 0 <= i < |cs| && KeyOf(cs[i]) == k && cs[i].target == t && cs[i].time == r.begin)
    && (exists i :: 0 <= i < |cs| && KeyOf(cs[i]) == k && cs[i].target == t && cs[i].time == r.end)
    && forall i | 0 <= i < |cs| && KeyOf(cs[i]) == k && cs[i].target == t :: r.begin <= cs[i].time <= r.end
  }

  /** The candidate carries exactly the totals of its key. */
  ghost predicate Totals(o: Candidate, k: Key, cs: seq<Credit>) {
    o.damage == Total(DamageFor(k), cs) && o.direct == Total(DirectFor(k), cs) && o.pet == Total(PetFor(k), cs)
    && o.events == Total(EventsFor(k), cs)
  }

  ghost predicate TargetTotals(o: Candidate, k: Key, cs: seq<Credit>) {
    o.targetDamage.Keys == o.ranges.Keys
    && (forall t :: t in o.ranges <==> Strikes(cs, k, t))
    && forall t | t in o.ranges :: o.targetDamage[t] == Total(DamageOn(k, t), cs) && Spans(o.ranges[t], cs, k, t)
  }

  lemma {:induction false} NoStrikesNoDamage(k: Key, t: TargetId, cs: seq<Credit>)
    ensures !Strikes(cs, k, t) ==> Total(DamageOn(k, t), cs) == 0
    ensures !Occurs(cs, k) ==> Total(DamageFor(k), cs) == 0 && Total(DirectFor(k), cs) == 0
                               && Total(PetFor(k), cs) == 0 && Total(EventsFor(k), cs) == 0
  {
    if cs != [] {
      NoStrikesNoDamage(k, t, cs[..|cs| - 1]);
      assert KeyOf(cs[|cs| - 1]) == k ==> Occurs(cs, k);
      assert forall i | 0 <= i < |cs| - 1 :: cs[..|cs| - 1][i] == cs[i];
    }
  }

  lemma StrikesPush(cs: seq<Credit>, k: Key, t: TargetId)
    requires cs != []
    ensures var c := cs[|cs| - 1];
            Strikes(cs, k, t) <==> Strikes(cs[..|cs| - 1], k, t) || (KeyOf(c) == k && c.target == t)
    ensures Occurs(cs, k) <==> Occurs(cs[..|cs| - 1], k) || KeyOf(cs[|cs| - 1]) == k
  {
    assert forall i | 0 <= i < |cs| - 1 :: cs[..|cs| - 1][i] == cs[i];
  }

  lemma SpansPush(r: Range, cs: seq<Credit>, k: Key, t: TargetId)
    requires cs != []
    ensures var c := cs[|cs| - 1];
            Spans(r, cs[..|cs| - 1], k, t) ==>
              Spans(if KeyOf(c) == k && c.target == t then Range(Min(r.begin, c.time), Max(r.end, c.time)) else r, cs, k, t)
    ensures var c := cs[|cs| - 1];
            KeyOf(c) == k && c.target == t && !Strikes(cs[..|cs| - 1], k, t) ==> Spans(Range(c.time, c.time), cs, k, t)
  {
    var c, before := cs[|cs| - 1], cs[..|cs| - 1];
    assert forall i | 0 <= i < |cs| - 1 :: before[i] == cs[i];
    if Spans(r, before, k, t) {
      var i :| 0 <= i < |before| && KeyOf(before[i]) == k && before[i].target == t && before[i].time == r.begin;
      var j :| 0 <= j < |before| && KeyOf(before[j]) == k && before[j].target == t && before[j].time == r.end;
      assert cs[i] == before[i] && cs[j] == before[j] && cs[|cs| - 1] == c;
    }
  }

  /** A range is fixed by what it spans. */
  lemma SpansUnique(r: Range, q: Range, cs: seq<Credit>, ds: seq<Credit>, k: Key, t: TargetId)
    requires multiset(cs) == multiset(ds) && Spans(r, cs, k, t) && Spans(q, ds, k, t)
    ensures r == q
  {
    SpansWithin(r, q, cs, ds, k, t);
    SpansWithin(q, r, ds, cs, k, t);
  }

  lemma SpansWithin(r: Range, q: Range, cs: seq<Credit>, ds: seq<Credit>, k: Key, t: TargetId)
    requires multiset(cs) == multiset(ds) && Spans(r, cs, k, t) && Spans(q, ds, k, t)
    ensures q.begin <= r.begin && r.end <= q.end
  {
    var i :| 0 <= i < |cs| && KeyOf(cs[i]) == k && cs[i].target == t && cs[i].time == r.begin;
    var j :| 0 <= j < |cs| && KeyOf(cs[j]) == k && cs[j].target == t && cs[j].time == r.end;
    assert cs[i] in multiset(ds) && cs[j] in multiset(ds);
    var i' :| 0 <= i' < |ds| && ds[i'] == cs[i];
    var j' :| 0 <= j' < |ds| && ds[j'] == cs[j];
  }

  /** Completeness is the source's, and the personal flag that of some credit of the key. */
  ghost predicate Flags(ev: Evidence, e: Encounter, o: Candidate, k: Key, cs: seq<Credit>) {
    o.complete == Complete(ev, e, k.1)
    && exists i :: 0 <= i < |cs| && KeyOf(cs[i]) == k && o.personal == (k.0 == Personal(cs[i].source))
  }

  /** The key's first credit is that of an unclaimed pet. */
  ghost predicate StartsUnclaimed(k: Key, cs: seq<Credit>) {
    exists i :: 0 <= i < |cs| && KeyOf(cs[i]) == k && cs[i].via.UnclaimedPet? && forall j | 0 <= j < i :: KeyOf(cs[j]) != k
  }

  /** The key's last pet credit is that of a pet with an owner. */
  ghost predicate EndsOwned(k: Key, cs: seq<Credit>) {
    exists i :: 0 <= i < |cs| && KeyOf(cs[i]) == k && cs[i].via.OwnedPet?
                && forall j | i < j < |cs| && KeyOf(cs[j]) == k :: cs[j].via.Direct?
  }

  ghost predicate PetFlags(o: Candidate, k: Key, cs: seq<Credit>) {
    o.provisional == StartsUnclaimed(k, cs) && o.hasPet == EndsOwned(k, cs)
  }

  lemma StartsPush(k: Key, cs: seq<Credit>)
    requires cs != []
    ensures var c, before := cs[|cs| - 1], cs[..|cs| - 1];
            StartsUnclaimed(k, cs) == if Occurs(before, k) then StartsUnclaimed(k, before) else KeyOf(c) == k && c.via.UnclaimedPet?
  {
    var c, before := cs[|cs| - 1], cs[..|cs| - 1];
    assert forall i | 0 <= i < |before| :: before[i] == cs[i];
    if StartsUnclaimed(k, before) {
      var i :| 0 <= i < |before| && KeyOf(before[i]) == k && before[i].via.UnclaimedPet? && forall j | 0 <= j < i :: KeyOf(before[j]) != k;
      assert cs[i] == before[i];
    }
    if !Occurs(before, k) && KeyOf(c) == k && c.via.UnclaimedPet? { assert cs[|cs| - 1] == c; }
  }

  lemma EndsPush(k: Key, cs: seq<Credit>)
    requires cs != []
    ensures var c, before := cs[|cs| - 1], cs[..|cs| - 1];
            EndsOwned(k, cs) == if KeyOf(c) == k && !c.via.Direct? then c.via.OwnedPet? else EndsOwned(k, before)
  {
    var c, before := cs[|cs| - 1], cs[..|cs| - 1];
    assert forall i | 0 <= i < |before| :: before[i] == cs[i];
    if EndsOwned(k, before) {
      var i :| 0 <= i < |before| && KeyOf(before[i]) == k && before[i].via.OwnedPet?
               && forall j | i < j < |before| && KeyOf(before[j]) == k :: before[j].via.Direct?;
      assert cs[i] == before[i];
    }
    if KeyOf(c) == k && c.via.OwnedPet? { assert cs[|cs| - 1] == c; }
  }

  lemma OtherKeyFlags(o: Candidate, k: Key, cs: seq<Credit>)
    requires cs != [] && KeyOf(cs[|cs| - 1]) != k && Occurs(cs[..|cs| - 1], k) && PetFlags(o, k, cs[..|cs| - 1])
    ensures PetFlags(o, k, cs)
  {
    hide StartsUnclaimed, EndsOwned;
    StartsPush(k, cs);
    EndsPush(k, cs);
  }

  lemma CreditedFlags(o: Candidate, k: Key, cs: seq<Credit>)
    requires cs != [] && KeyOf(cs[|cs| - 1]) == k
    requires if Occurs(cs[..|cs| - 1], k) then PetFlags(o, k, cs[..|cs| - 1])
             else o.provisional == cs[|cs| - 1].via.UnclaimedPet? && !o.hasPet
    ensures Credited(o, cs[|cs| - 1]).Some? ==> PetFlags(Credited(o, cs[|cs| - 1]).value, k, cs)
  {
    hide StartsUnclaimed, EndsOwned;
    StartsPush(k, cs);
    EndsPush(k, cs);
    if !Occurs(cs[..|cs| - 1], k) { NoneEndsOwned(k, cs[..|cs| - 1]); }
  }

  lemma NoneEndsOwned(k: Key, cs: seq<Credit>)
    requires !Occurs(cs, k)
    ensures !EndsOwned(k, cs)
  {}

  ghost predicate Describes(ev: Evidence, e: Encounter, o: Candidate, k: Key, cs: seq<Credit>) {
    Totals(o, k, cs) && TargetTotals(o, k, cs) && Flags(ev, e, o, k, cs) && PetFlags(o, k, cs)
  }

  /** The table holds one candidate per (participant, source) and exactly its totals. */
  ghost predicate Matches(ev: Evidence, e: Encounter, m: map<Key, Candidate>, cs: seq<Credit>) {
    (forall k :: k in m <==> Occurs(cs, k)) && forall k | k in m :: Describes(ev, e, m[k], k, cs)
  }

  lemma OtherKeyKeeps(ev: Evidence, e: Encounter, o: Candidate, k: Key, cs: seq<Credit>)
    requires cs != [] && KeyOf(cs[|cs| - 1]) != k && Describes(ev, e, o, k, cs[..|cs| - 1])
    ensures Describes(ev, e, o, k, cs)
  {
    hide Complete, TargetTotals, Total, PetFlags;
    OtherKeyFlags(o, k, cs);
    OtherKeyTargets(o, k, cs);
    OtherKeyTotals(k, cs);
    assert forall i | 0 <= i < |cs| - 1 :: cs[..|cs| - 1][i] == cs[i];
  }

  lemma OtherKeyTotals(k: Key, cs: seq<Credit>)
    requires cs != [] && KeyOf(cs[|cs| - 1]) != k
    ensures var before := cs[..|cs| - 1];
            Total(DamageFor(k), cs) == Total(DamageFor(k), before) && Total(DirectFor(k), cs) == Total(DirectFor(k), before)
            && Total(PetFor(k), cs) == Total(PetFor(k), before) && Total(EventsFor(k), cs) == Total(EventsFor(k), before)
    ensures forall t :: Total(DamageOn(k, t), cs) == Total(DamageOn(k, t), cs[..|cs| - 1])
  {}

  lemma OtherKeyTargets(o: Candidate, k: Key, cs: seq<Credit>)
    requires cs != [] && KeyOf(cs[|cs| - 1]) != k && TargetTotals(o, k, cs[..|cs| - 1])
    ensures TargetTotals(o, k, cs)
  {
    hide Strikes, Spans, Total;
    forall t ensures Strikes(cs, k, t) <==> Strikes(cs[..|cs| - 1], k, t) { StrikesPush(cs, k, t); }
    OtherKeyTotals(k, cs);
    forall t | t in o.ranges ensures Spans(o.ranges[t], cs, k, t) { SpansPush(o.ranges[t], cs, k, t); }
  }

  lemma CreditedTotals(o: Candidate, k: Key, cs: seq<Credit>)
    requires cs != [] && KeyOf(cs[|cs| - 1]) == k && Totals(o, k, cs[..|cs| - 1])
    ensures Credited(o, cs[|cs| - 1]).Some? ==> Totals(Credited(o, cs[|cs| - 1]).value, k, cs)
  {}

  lemma CreditedTargets(o: Candidate, k: Key, cs: seq<Credit>)
    requires cs != [] && KeyOf(cs[|cs| - 1]) == k && TargetTotals(o, k, cs[..|cs| - 1])
    ensures Credited(o, cs[|cs| - 1]).Some? ==> TargetTotals(Credited(o, cs[|cs| - 1]).value, k, cs)
  {
    hide Strikes, Spans, Total;
    var c, before := cs[|cs| - 1], cs[..|cs| - 1];
    if Credited(o, c).Some? {
      var n := Credited(o, c).value;
      forall t ensures t in n.ranges <==> Strikes(cs, k, t) { StrikesPush(cs, k, t); }
      forall t | t in n.ranges ensures n.targetDamage[t] == Total(DamageOn(k, t), cs) && Spans(n.ranges[t], cs, k, t) {
        SpansPush(if t in o.ranges then o.ranges[t] else n.ranges[t], cs, k, t);
        NoStrikesNoDamage(k, t, before);
        TotalPush(DamageOn(k, t), cs);
      }
    }
  }

  lemma TotalPush(m: Measure, cs: seq<Credit>)
    requires cs != []
    ensures Total(m, cs) == Total(m, cs[..|cs| - 1]) + Weight(m, cs[|cs| - 1])
  {}

  lemma BlankDescribes(c: Credit, complete: bool, k: Key, cs: seq<Credit>)
    requires !Occurs(cs, k)
    ensures Totals(Blank(c, complete), k, cs) && TargetTotals(Blank(c, complete), k, cs)
  {
    NoStrikesNoDamage(k, c.target, cs);
    assert forall t :: !Strikes(cs, k, t);
  }

  lemma CreditedDescribes(ev: Evidence, e: Encounter, o: Candidate, k: Key, cs: seq<Credit>)
    requires cs != [] && KeyOf(cs[|cs| - 1]) == k
    requires Describes(ev, e, o, k, cs[..|cs| - 1])
             || (!Occurs(cs[..|cs| - 1], k) && o == Blank(cs[|cs| - 1], Complete(ev, e, k.1)))
    ensures Credited(o, cs[|cs| - 1]).Some? ==> Describes(ev, e, Credited(o, cs[|cs| - 1]).value, k, cs)
  {
    hide Complete, Total, TargetTotals, PetFlags;
    var c, before := cs[|cs| - 1], cs[..|cs| - 1];
    if !Occurs(before, k) { BlankDescribes(c, Complete(ev, e, k.1), k, before); }
    CreditedTotals(o, k, cs);
    CreditedTargets(o, k, cs);
    CreditedFlags(o, k, cs);
    assert forall i | 0 <= i < |before| :: before[i] == cs[i];
    assert cs[|cs| - 1] == c;
  }

  /** The candidate table is exactly the totals of the eligible facts, key by key. */
  lemma {:induction false} TallyMatches(ev: Evidence, e: Encounter, cs: seq<Credit>)
    ensures Tally(ev, e, cs).Some? ==> Matches(ev, e, Tally(ev, e, cs).value, cs)
  {
    if cs != [] {
      hide Describes, Occurs, Credited, Blank, Complete;
      var c, before := cs[|cs| - 1], cs[..|cs| - 1];
      TallyMatches(ev, e, before);
      if Tally(ev, e, cs).Some? {
        var m, n := Tally(ev, e, before).value, Tally(ev, e, cs).value;
        forall k ensures k in n <==> Occurs(cs, k) { StrikesPush(cs, k, c.target); }
        forall k | k in n ensures Describes(ev, e, n[k], k, cs) {
          if k == KeyOf(c) {
            CreditedDescribes(ev, e, if k in m then m[k] else Blank(c, Complete(ev, e, k.1)), k, cs);
          } else {
            OtherKeyKeeps(ev, e, n[k], k, cs);
          }
        }
      }
    } else {
      assert forall k :: !Occurs(cs, k);
    }
  }
}
