/** Deadlines: no wake-up is missed, nothing outlives its deadline, and a silent
    book drains. */
module CombatDeadlines {
  import opened Foundations
  import opened CombatModel
  import opened CombatSteps
  import opened CombatPartition

  function EncounterDeadline(e: Encounter, policy: Policy): U64 {
    match e.phase
    case Active => SatAdd(e.lastSustainReceipt, policy.inactivityMs)
    case Ending(_, enteredAt, _, _) => SatAdd(enteredAt, policy.endingGraceMs)
    case Held(_, until) => until
  }

  predicate AwaitsEof(st: SourceState) { st.eofPasses >= 2 && st.eofFirstAt.Some? }

  function Deadlines(s: Engine): set<U64> {
    (set id | id in s.encounters :: EncounterDeadline(s.encounters[id], s.policy))
    + (set x | x in s.sources && AwaitsEof(s.sources[x]) :: SatAdd(s.sources[x].eofFirstAt.value, s.policy.stableEofMs))
  }

  /** What `next_deadline` returns: the least deadline, if there is one. */
  ghost predicate IsNextDeadline(s: Engine, d: Option<U64>) {
    match d
    case None => Deadlines(s) == {}
    case Some(t) => t in Deadlines(s) && forall x | x in Deadlines(s) :: t <= x
  }

  // ----- no missed wake-up -----

  /** No ending encounter is waiting for a source that has already closed. */
  ghost predicate Settled(s: Engine) {
    forall id | id in s.encounters && s.encounters[id].phase.Ending? :: !AllClosed(s.sources, s.encounters[id].phase)
  }

  lemma TimeSettles(s: Engine, now: U64, publish: Publisher)
    ensures Settled(AdvanceTime(s, now, publish))
  {
    hide Finalize, ClosedSources;
    var s' := AdvanceTime(s, now, publish);
    forall id | id in s'.encounters && s'.encounters[id].phase.Ending?
      ensures !AllClosed(s'.sources, s'.encounters[id].phase)
    {
      var ev := EvidenceOf(s).(sources := ClosedSources(s, now));
      FinalizeHolds(ev, s.encounters[id], now, publish);
      assert s'.encounters[id] == AdvanceEncounter(ev, s.encounters[id], now, publish);
    }
  }

  lemma FinalizeHolds(ev: Evidence, e: Encounter, now: U64, publish: Publisher)
    ensures var ending := if InactivityDue(e, now, ev.policy) then EnterEnding(e, Inactivity, now, e.lastSustainEq) else e;
            ending.phase.Ending? ==>
              Finalize(ev, ending, now, publish).phase == Held(ending.phase.reason, SatAdd(now, ev.policy.heldMs))
  {}

  lemma QuietEncounter(s: Engine, id: EncounterId, t: U64, publish: Publisher)
    requires s.policy.Valid() && Settled(s) && id in s.encounters && t < EncounterDeadline(s.encounters[id], s.policy)
    ensures AdvanceEncounter(EvidenceOf(s).(now := t), s.encounters[id], t, publish) == s.encounters[id]
    ensures !Expired(s.encounters[id], t)
  { hide Finalize; }

  lemma QuietSource(st: SourceState, t: U64, policy: Policy)
    requires policy.Valid()
    requires AwaitsEof(st) ==> t < SatAdd(st.eofFirstAt.value, policy.stableEofMs)
    ensures CloseAtEof(st, t, policy) == st
  {}

  /** Before the next deadline a settled engine does not move. */
  lemma QuietBeforeDeadline(s: Engine, t: U64, publish: Publisher, d: Option<U64>)
    requires s.policy.Valid() && Settled(s) && IsNextDeadline(s, d) && (d.Some? ==> t < d.value)
    ensures AdvanceTime(s.(now := t), t, publish) == s.(now := t)
  {
    hide AdvanceEncounter, CloseAtEof, EncounterDeadline, Expired;
    var c := s.(now := t);
    forall x | x in s.sources ensures CloseAtEof(s.sources[x], t, s.policy) == s.sources[x] {
      if AwaitsEof(s.sources[x]) {
        assert SatAdd(s.sources[x].eofFirstAt.value, s.policy.stableEofMs) in Deadlines(s);
      }
      QuietSource(s.sources[x], t, s.policy);
    }
    assert ClosedSources(c, t) == s.sources;
    var ev := EvidenceOf(s).(now := t);
    assert EvidenceOf(c).(sources := ClosedSources(c, t)) == ev;
    forall id | id in s.encounters
      ensures AdvanceEncounter(ev, s.encounters[id], t, publish) == s.encounters[id] && !Expired(s.encounters[id], t)
    {
      assert EncounterDeadline(s.encounters[id], s.policy) in Deadlines(s);
      QuietEncounter(s, id, t, publish);
    }
    assert Advanced(c, t, publish) == s.encounters;
    QuietAdvance(c, t, publish);
  }

  lemma QuietAdvance(s: Engine, t: U64, publish: Publisher)
    requires ClosedSources(s, t) == s.sources && Advanced(s, t, publish) == s.encounters
    requires forall id | id in s.encounters :: !Expired(s.encounters[id], t)
    ensures AdvanceTime(s, t, publish) == s
  {
    hide Advanced, ClosedSources, Expired;
    var all := s.encounters;
    assert (map id | id in all && !Expired(all[id], t) :: all[id]) == all;
    assert (map x | x in s.sourceActive
                    && !(s.sourceActive[x] in all && NewlyHeld(s.encounters[s.sourceActive[x]], all[s.sourceActive[x]]))
              :: s.sourceActive[x]) == s.sourceActive;
  }

  /** After any step, a tick before the next deadline changes nothing but the clock. */
  lemma NoMissedWakeup(s: Engine, step: Step, publish: Publisher, t: U64, d: Option<U64>)
    requires s.policy.Valid()
    requires var after := StepOnce(s, step, publish);
             IsNextDeadline(after, d) && after.now <= t && (d.Some? ==> t < d.value)
    ensures var after := StepOnce(s, step, publish);
            StepOnce(after, Tick(t), publish) == after.(now := t)
  {
    hide AdvanceTime, Changed, IsNextDeadline, Settled;
    var after := StepOnce(s, step, publish);
    TimeSettles(Changed(s, step), Max(s.now, step.at), publish);
    QuietBeforeDeadline(after, t, publish, d);
    TickIsAdvance(after, t, publish);
  }

  lemma TickIsAdvance(s: Engine, t: U64, publish: Publisher)
    requires 0 < s.policy.maxRecordIds && s.now <= t
    ensures StepOnce(s, Tick(t), publish) == AdvanceTime(s.(now := t), t, publish)
  { hide AdvanceTime; }

  // ----- every deadline moves its encounter on -----

  /** Active, ending, held, gone. */
  function Stage(s: Engine, id: EncounterId): nat {
    if id !in s.encounters then 3
    else match s.encounters[id].phase case Active => 0 case Ending(_, _, _, _) => 1 case Held(_, _) => 2
  }

  /** The deadline before saturation at the end of the 64-bit clock. */
  function TrueDeadline(e: Encounter, policy: Policy): int {
    match e.phase
    case Active => e.lastSustainReceipt + policy.inactivityMs
    case Ending(_, enteredAt, _, _) => enteredAt + policy.endingGraceMs
    case Held(_, until) => until
  }

  /** Time never moves an encounter back, and past its own deadline it moves on. */
  lemma PastDeadlineMovesOn(s: Engine, now: U64, publish: Publisher, id: EncounterId)
    requires id in s.encounters
    ensures Stage(s, id) <= Stage(AdvanceTime(s, now, publish), id)
    ensures TrueDeadline(s.encounters[id], s.policy) <= now ==> Stage(s, id) < Stage(AdvanceTime(s, now, publish), id)
  {
    hide Finalize, ClosedSources;
    var ev := EvidenceOf(s).(sources := ClosedSources(s, now));
    FinalizeHolds(ev, s.encounters[id], now, publish);
  }

  // ----- the silent book drains -----

  /** Receipts and entry times lie in the past, hold times at most one hold ahead. */
  predicate TimelyEncounter(e: Encounter, now: U64, policy: Policy) {
    e.lastSustainReceipt <= now && (e.phase.Ending? ==> e.phase.enteredAt <= now)
    && (e.phase.Held? ==> e.phase.until <= now + policy.heldMs)
  }

  ghost predicate Timely(s: Engine) {
    forall id | id in s.encounters :: TimelyEncounter(s.encounters[id], s.now, s.policy)
  }

  ghost predicate LastLeavesNothing(s: Engine) {
    s.encounters == map[] ==> s.ledger == [] && s.assignments == map[]
  }

  /** Every surviving encounter is the advance of one that was there. */
  lemma TimeShape(s: Engine, now: U64, publish: Publisher)
    ensures var s', ev := AdvanceTime(s, now, publish), EvidenceOf(s).(sources := ClosedSources(s, now));
            forall id | id in s'.encounters ::
              id in s.encounters && s'.encounters[id] == AdvanceEncounter(ev, s.encounters[id], now, publish)
              && !Expired(s'.encounters[id], now)
  { hide AdvanceEncounter, ClosedSources; }

  lemma TimeTimely(s: Engine, publish: Publisher)
    requires Timely(s)
    ensures Timely(AdvanceTime(s, s.now, publish))
  {
    hide AdvanceTime, ClosedSources, Finalize;
    var s', ev := AdvanceTime(s, s.now, publish), EvidenceOf(s).(sources := ClosedSources(s, s.now));
    TimeShape(s, s.now, publish);
    TimeKeepsClock(s, s.now, publish);
    forall id | id in s'.encounters ensures TimelyEncounter(s'.encounters[id], s'.now, s'.policy) {
      FinalizeHolds(ev, s.encounters[id], s.now, publish);
      FinalizeReceipt(ev, s.encounters[id], s.now, publish);
      assert TimelyEncounter(s.encounters[id], s.now, s.policy);
    }
  }

  lemma TimeKeepsClock(s: Engine, now: U64, publish: Publisher)
    ensures AdvanceTime(s, now, publish).now == s.now && AdvanceTime(s, now, publish).policy == s.policy
  { hide Advanced; }

  lemma FinalizeReceipt(ev: Evidence, e: Encounter, now: U64, publish: Publisher)
    ensures AdvanceEncounter(ev, e, now, publish).lastSustainReceipt == e.lastSustainReceipt
  {}

  lemma TimeLeavesNothing(s: Engine, now: U64, publish: Publisher)
    requires LastLeavesNothing(s) && forall f | f in s.assignments :: f < |s.ledger|
    ensures LastLeavesNothing(AdvanceTime(s, now, publish))
    ensures forall f | f in AdvanceTime(s, now, publish).assignments :: f < |AdvanceTime(s, now, publish).ledger|
  { hide AdvanceEncounter, ClosedSources; }

  /** After the inactivity time nothing is active. */
  lemma InactivityPasses(s: Engine, t: U64, publish: Publisher)
    requires Timely(s) && s.now + s.policy.inactivityMs <= t
    ensures var s' := AdvanceTime(s.(now := t), t, publish); forall id | id in s'.encounters :: !s'.encounters[id].phase.Active?
  {
    hide AdvanceTime, ClosedSources, Finalize;
    var c := s.(now := t);
    TimeShape(c, t, publish);
    forall id | id in AdvanceTime(c, t, publish).encounters ensures !AdvanceTime(c, t, publish).encounters[id].phase.Active? {
      assert TimelyEncounter(s.encounters[id], s.now, s.policy);
      FinalizeHolds(EvidenceOf(c).(sources := ClosedSources(c, t)), s.encounters[id], t, publish);
    }
  }

  /** After the grace time everything is held. */
  lemma GracePasses(s: Engine, t: U64, publish: Publisher)
    requires Timely(s) && s.now + s.policy.endingGraceMs <= t
    requires forall id | id in s.encounters :: !s.encounters[id].phase.Active?
    ensures var s' := AdvanceTime(s.(now := t), t, publish); forall id | id in s'.encounters :: s'.encounters[id].phase.Held?
  {
    hide AdvanceTime, ClosedSources, Finalize;
    var c := s.(now := t);
    TimeShape(c, t, publish);
    forall id | id in AdvanceTime(c, t, publish).encounters ensures AdvanceTime(c, t, publish).encounters[id].phase.Held? {
      assert TimelyEncounter(s.encounters[id], s.now, s.policy);
      FinalizeHolds(EvidenceOf(c).(sources := ClosedSources(c, t)), s.encounters[id], t, publish);
    }
  }

  /** After the hold time nothing is left. */
  lemma HoldPasses(s: Engine, t: U64, publish: Publisher)
    requires Timely(s) && s.now + s.policy.heldMs <= t
    requires forall id | id in s.encounters :: s.encounters[id].phase.Held?
    ensures AdvanceTime(s.(now := t), t, publish).encounters == map[]
  {
    hide AdvanceTime, ClosedSources, Finalize;
    var c := s.(now := t);
    var ev := EvidenceOf(c).(sources := ClosedSources(c, t));
    forall id | id in s.encounters ensures Expired(AdvanceEncounter(ev, s.encounters[id], t, publish), t) {
      assert TimelyEncounter(s.encounters[id], s.now, s.policy);
    }
    TimeShape(c, t, publish);
  }

  lemma ClockTimely(s: Engine, t: U64)
    requires Timely(s) && s.now <= t
    ensures Timely(s.(now := t))
  {
    forall id | id in s.encounters ensures TimelyEncounter(s.encounters[id], t, s.policy) {
      assert TimelyEncounter(s.encounters[id], s.now, s.policy);
    }
  }

  /** One tick of a timely engine, with what the drain needs of it. */
  lemma TickTimely(s: Engine, t: U64, publish: Publisher)
    requires Timely(s) && s.now <= t && 0 < s.policy.maxRecordIds
    requires LastLeavesNothing(s) && forall f | f in s.assignments :: f < |s.ledger|
    ensures var s' := StepOnce(s, Tick(t), publish);
            s' == AdvanceTime(s.(now := t), t, publish) && Timely(s') && s'.now == t && LastLeavesNothing(s')
            && forall f | f in s'.assignments :: f < |s'.ledger|
  {
    hide AdvanceTime, Timely;
    TickIsAdvance(s, t, publish);
    ClockTimely(s, t);
    TimeTimely(s.(now := t), publish);
    TimeLeavesNothing(s.(now := t), t, publish);
  }

  /** Three ticks, spaced by the inactivity, grace and hold times, empty any
      non-empty book together with its ledger and assignments. */
  lemma ThreeTicksDrain(s: Engine, t1: U64, t2: U64, t3: U64, publish: Publisher)
    requires Timely(s) && Partition(s) && s.encounters != map[] && 0 < s.policy.maxRecordIds
    requires s.now + s.policy.inactivityMs <= t1
    requires t1 + s.policy.endingGraceMs <= t2 && t2 + s.policy.heldMs <= t3
    ensures var s' := Run(s, [Tick(t1), Tick(t2), Tick(t3)], publish);
            s'.encounters == map[] && s'.ledger == [] && s'.assignments == map[]
  {
    hide AdvanceTime, StepOnce, Timely, Run;
    var s1 := StepOnce(s, Tick(t1), publish);
    TickTimely(s, t1, publish);
    InactivityPasses(s, t1, publish);
    var s2 := StepOnce(s1, Tick(t2), publish);
    TickTimely(s1, t2, publish);
    GracePasses(s1, t2, publish);
    TickTimely(s2, t3, publish);
    HoldPasses(s2, t3, publish);
    ThreeSteps(s, Tick(t1), Tick(t2), Tick(t3), publish);
  }

  lemma ThreeSteps(s: Engine, a: Step, b: Step, c: Step, publish: Publisher)
    requires 0 < s.policy.maxRecordIds
    ensures Run(s, [a, b, c], publish) == StepOnce(StepOnce(StepOnce(s, a, publish), b, publish), c, publish)
  {
    hide StepOnce;
    assert [a, b, c][..2] == [a, b] && [a, b][..1] == [a] && [a][..0] == [];
    assert Run(s, [a], publish) == StepOnce(s, a, publish);
    assert Run(s, [a, b], publish) == StepOnce(Run(s, [a], publish), b, publish);
  }

  // ----- every reachable engine is timely -----

  /** Times in both engines are read against the same clock. */
  ghost predicate StaysTimely(s: Engine, s': Engine) {
    s'.now == s.now && s'.policy == s.policy && (Timely(s) ==> Timely(s'))
  }

  lemma StaysTwice(a: Engine, b: Engine, c: Engine)
    requires StaysTimely(a, b) && StaysTimely(b, c)
    ensures StaysTimely(a, c)
  {}

  /** One encounter changes, to one that is timely if the old one was. */
  lemma OneChangeTimely(s: Engine, s': Engine, id: EncounterId)
    requires s'.now == s.now && s'.policy == s.policy && id in s'.encounters
    requires s'.encounters.Keys <= s.encounters.Keys + {id}
    requires forall x | x in s'.encounters && x != id :: s'.encounters[x] == s.encounters[x]
    requires Timely(s) ==> TimelyEncounter(s'.encounters[id], s.now, s.policy)
    ensures StaysTimely(s, s')
  {}

  lemma SameTimely(s: Engine, s': Engine)
    requires s'.now == s.now && s'.policy == s.policy && s'.encounters == s.encounters
    ensures StaysTimely(s, s')
  {}

  lemma MergeTimely(s: Engine, left: EncounterId, right: EncounterId)
    requires left != right
    ensures StaysTimely(s, Merge(s, left, right).0)
  {
    hide Ascending, JoinTargets, Redirect;
    var chosen := if StrLe(left, right) then left else right;
    var other := if chosen == left then right else left;
    var r := Merge(s, left, right).0;
    if chosen in s.encounters && other in s.encounters {
      if Timely(s) {
        assert TimelyEncounter(s.encounters[chosen], s.now, s.policy) && TimelyEncounter(s.encounters[other], s.now, s.policy);
      }
      OneChangeTimely(s, r, chosen);
    }
  }

  lemma RoutedTimely(s: Engine, fact: LedgerFact)
    requires fact.event.Damage?
    ensures StaysTimely(s, Routed(s, fact).0)
  {
    hide Merge, Read, Correlated, Timely;
    var v := Read(s, fact);
    var (s1, chosen) := Choose(s, fact.source, v.fingerprint);
    SameTimely(s, s);
    var similar := Correlated(s, fact.source.server, v.fingerprint);
    if similar != {} && fact.source.id in s.sourceActive && s.sourceActive[fact.source.id] != Least(similar) {
      MergeTimely(s, s.sourceActive[fact.source.id], Least(similar));
    }
    var r := Reroute(s1, chosen, fact, v.target).0;
    RerouteTimely(s1, chosen, fact, v.target);
    StaysTwice(s, s1, r);
  }

  lemma RerouteTimely(s: Engine, chosen: Option<EncounterId>, fact: LedgerFact, target: TargetId)
    ensures StaysTimely(s, Reroute(s, chosen, fact, target).0)
  {
    var r := Reroute(s, chosen, fact, target).0;
    if chosen.Some? && chosen.value in s.encounters { OneChangeTimely(s, r, chosen.value); }
  }

  lemma MintTimely(s: Engine, fact: LedgerFact, v: Reading)
    requires fact.receipt <= s.now
    ensures StaysTimely(s, Mint(s, fact, v).0)
  {
    hide LateAfterClosure, MintId, ManagedIdentities;
    var (r, id) := Mint(s, fact, v);
    if id.Some? && id.value !in s.encounters { OneChangeTimely(s, r, id.value); }
  }

  lemma {:induction false} PromoteTimely(s: Engine, id: EncounterId, source: SourceId, target: TargetId, anchor: EqSecond, n: nat)
    requires n <= |s.ledger|
    ensures StaysTimely(s, PromoteUpTo(s, id, source, target, anchor, n))
  {
    hide Promotable, Timely;
    if n == 0 {
      SameTimely(s, s);
    } else {
      PromoteTimely(s, id, source, target, anchor, n - 1);
      var before := PromoteUpTo(s, id, source, target, anchor, n - 1);
      PromoteOneTimely(before, id, n - 1);
      StaysTwice(s, before, PromoteOne(before, id, n - 1));
    }
  }

  lemma PromoteOneTimely(s: Engine, id: EncounterId, i: nat)
    requires i < |s.ledger|
    ensures StaysTimely(s, PromoteOne(s, id, i))
  { if id in s.encounters { OneChangeTimely(s, PromoteOne(s, id, i), id); } }

  lemma MemberTimely(s: Engine, id: EncounterId, source: LogSource)
    ensures StaysTimely(s, AddMember(s, id, source))
  { if id in s.encounters { OneChangeTimely(s, AddMember(s, id, source), id); } }

  lemma StoreTimely(s: Engine, id: EncounterId, index: nat, v: Reading, contributes: bool)
    requires index < |s.ledger| && s.ledger[index].receipt <= s.now
    ensures StaysTimely(s, Store(s, id, index, v, contributes))
  { if id in s.encounters { OneChangeTimely(s, Store(s, id, index, v, contributes), id); } }

  lemma SettleTimely(s: Engine, id: EncounterId, index: nat, v: Reading)
    requires index < |s.ledger| && s.ledger[index].receipt <= s.now
    ensures StaysTimely(s, Settle(s, id, index, v))
  {
    hide Store, AddMember, PromoteUpTo, KnowsTarget, Timely, Contributes;
    SameTimely(s, s);
    var fact, c := s.ledger[index], Contributes(s, id, v);
    if c || KnowsTarget(s, id, v.target) {
      MemberTimely(s, id, fact.source);
      var joined := AddMember(s, id, fact.source);
      StoreTimely(joined, id, index, v, c);
      var stored := Store(joined, id, index, v, c);
      StaysTwice(s, joined, stored);
      var active := stored.(sourceActive := stored.sourceActive[fact.source.id := id]);
      SameTimely(stored, active);
      StaysTwice(s, stored, active);
      PromoteTimely(active, id, fact.source.id, v.target, fact.eqTime, |active.ledger|);
      if v.startQualified { StaysTwice(s, active, Settle(s, id, index, v)); }
    }
  }

  lemma DamageTimely(s: Engine, index: nat)
    requires index < |s.ledger| && s.ledger[index].receipt <= s.now && s.ledger[index].event.Damage?
    ensures StaysTimely(s, ProcessDamage(s, index))
  {
    hide Routed, Mint, Settle, Read, Timely;
    var fact := s.ledger[index];
    var (placed, chosen) := Place(s, fact);
    RoutedTimely(s, fact);
    MintTimely(Routed(s, fact).0, fact, Read(s, fact));
    StaysTwice(s, Routed(s, fact).0, placed) by { SameTimely(placed, placed); }
    if chosen.Some? {
      SettleTimely(placed, chosen.value, index, Read(s, fact));
      StaysTwice(s, placed, ProcessDamage(s, index));
    }
  }

  lemma FactTimely(s: Engine)
    requires s.ledger != [] && s.ledger[|s.ledger| - 1].receipt <= s.now
    ensures StaysTimely(s, ProcessFact(s))
  {
    hide ProcessDamage, ProcessAttempt, ProcessSlain, StaysTimely;
    var index := |s.ledger| - 1;
    match s.ledger[index].event {
      case Damage(_, _, _, _, _, _, _, _) => DamageTimely(s, index);
      case Attempt(_, _, _) => AttemptTimely(s, index);
      case Slain(_, _) => SlainTimely(s, index);
    }
  }

  lemma AttemptTimely(s: Engine, index: nat)
    requires index < |s.ledger| && s.ledger[index].receipt <= s.now && s.ledger[index].event.Attempt?
    ensures StaysTimely(s, ProcessAttempt(s, index))
  {
    var r := ProcessAttempt(s, index);
    if r.encounters != s.encounters { OneChangeTimely(s, r, s.sourceActive[s.ledger[index].source.id]); }
  }

  lemma KillTimely(e: Encounter, index: nat, fact: LedgerFact, target: TargetId, now: U64, policy: Policy)
    requires target in e.targets && fact.receipt <= now && TimelyEncounter(e, now, policy)
    ensures TimelyEncounter(Kill(e, index, fact, target), now, policy)
  {}

  lemma SlainTimely(s: Engine, index: nat)
    requires index < |s.ledger| && s.ledger[index].receipt <= s.now && s.ledger[index].event.Slain?
    ensures StaysTimely(s, ProcessSlain(s, index))
  {
    hide SlainIn, AddMember, Kill, Timely;
    var fact := s.ledger[index];
    var target := Target(fact.source, fact.event.target);
    var chosen := SlainIn(s, fact.source, target);
    SlainInKnows(s, fact.source, target);
    if chosen.Some? {
      var id := chosen.value;
      var joined := AddMember(s, id, fact.source);
      MemberTimely(s, id, fact.source);
      MemberKeepsTargets(s, id, fact.source);
      var r := ProcessSlain(s, index);
      if Timely(joined) {
        TimelyAt(joined, id);
        KillTimely(joined.encounters[id], index, fact, target, s.now, s.policy);
      }
      OneChangeTimely(joined, r, id);
      StaysTwice(s, joined, r);
    } else {
      SameTimely(s, s);
    }
  }

  lemma TimelyAt(s: Engine, id: EncounterId)
    requires Timely(s) && id in s.encounters
    ensures TimelyEncounter(s.encounters[id], s.now, s.policy)
  {}

  lemma EventTimely(s: Engine, r: Record, t: EqSecond, now: U64, event: LogEvent)
    requires now <= s.now
    ensures StaysTimely(s, ApplyEvent(s, r, t, now, event))
  {
    hide ProcessFact, Replayed, CountOccurrence, Timely;
    var s' := ApplyEvent(s, r, t, now, event);
    if event.Combat? {
      var c := CountOccurrence(s, r.id, t, event.fact);
      CountsOnlyOccurrences(s, r.id, t, event.fact);
      var a := Append(c, LedgerFact(r.id, r.source, t, now, event.fact));
      SameTimely(s, c);
      SameTimely(s, a);
      FactTimely(a);
      StaysTwice(s, a, ProcessFact(a));
    } else {
      SameTimely(s, s');
    }
  }

  lemma {:induction false} EventsTimely(s: Engine, r: Record, t: EqSecond, now: U64, n: nat)
    requires now <= s.now && n <= |r.events|
    ensures StaysTimely(s, ApplyEvents(s, r, t, now, n))
  {
    hide ApplyEvent, Timely;
    if n == 0 {
      SameTimely(s, s);
    } else {
      EventsTimely(s, r, t, now, n - 1);
      EventTimely(ApplyEvents(s, r, t, now, n - 1), r, t, now, r.events[n - 1]);
      StaysTwice(s, ApplyEvents(s, r, t, now, n - 1), ApplyEvents(s, r, t, now, n));
    }
  }

  /** Every encounter keeps its phase and its last sustaining receipt. */
  ghost predicate KeepsTimes(s: Engine, s': Engine) {
    s'.now == s.now && s'.policy == s.policy && s'.encounters.Keys <= s.encounters.Keys
    && forall id | id in s'.encounters ::
         s'.encounters[id].phase == s.encounters[id].phase
         && s'.encounters[id].lastSustainReceipt == s.encounters[id].lastSustainReceipt
  }

  lemma KeepsTimesStays(s: Engine, s': Engine)
    requires KeepsTimes(s, s')
    ensures StaysTimely(s, s')
  {
    if Timely(s) {
      forall id | id in s'.encounters ensures TimelyEncounter(s'.encounters[id], s'.now, s'.policy) {
        assert TimelyEncounter(s.encounters[id], s.now, s.policy);
      }
    }
  }

  lemma KeepsTimesTwice(a: Engine, b: Engine, c: Engine)
    requires KeepsTimes(a, b) && KeepsTimes(b, c)
    ensures KeepsTimes(a, c)
  {}

  lemma RegisterKeepsTimes(s: Engine, source: LogSource, generation: U64, at: U64)
    ensures KeepsTimes(s, RegisterSource(s, source, generation, at))
  { hide SameServer, Personal; }

  lemma GapKeepsTimes(s: Engine, id: SourceId, generation: U64, reason: GapReason)
    ensures KeepsTimes(s, RemoveSource(s, id)) && KeepsTimes(s, MarkGap(s, id, generation, reason))
  { hide GapSource; }

  lemma EofKeepsTimes(s: Engine, id: SourceId, generation: U64, at: U64)
    ensures KeepsTimes(s, NoteStableEof(s, id, generation, at))
  {}

  lemma RoomKeepsTimes(s: Engine, r: Record)
    ensures KeepsTimes(s, MakeRoom(s, r)) && KeepsTimes(s, s)
  { hide FactCount; }

  lemma AdmitKeepsTimes(s: Engine, r: Record, now: U64, gap: Option<GapReason>)
    requires r.source.id in s.sources && 0 < s.policy.maxRecordIds
    ensures KeepsTimes(s, Admit(s, r, now, gap))
  { hide Progress, GapSource; }

  lemma PrepareKeepsTimes(s: Engine, r: Record, now: U64)
    requires 0 < s.policy.maxRecordIds
    ensures KeepsTimes(s, Prepare(s, r, now).0)
  {
    hide RegisterSource, Admit, Judge, Usable, MakeRoom, KeepsTimes;
    RoomKeepsTimes(s, r);
    if !(r.id.source != r.source.id || r.id in s.accepted) {
      RegisterKeepsTimes(s, r.source, r.id.generation, now);
      RegisterKnows(s, r.source, r.id.generation, now);
      var known := if r.source.id in s.sources then s else RegisterSource(s, r.source, r.id.generation, now);
      if Judge(known, r).Accept? {
        var a := Admit(known, r, now, Judge(known, r).gap);
        AdmitKeepsTimes(known, r, now, Judge(known, r).gap);
        KeepsTimesTwice(s, known, a);
        RoomKeepsTimes(a, r);
        KeepsTimesTwice(s, a, MakeRoom(a, r));
      }
    }
  }

  lemma InputTimely(s: Engine, at: U64, input: Input)
    requires 0 < s.policy.maxRecordIds && at <= s.now
    ensures StaysTimely(s, ApplyInput(s, at, input))
  {
    hide Prepare, ApplyEvents, RegisterSource, RemoveSource, MarkGap, NoteStableEof, Timely, KeepsTimes;
    match input {
      case NewRecord(r) =>
        var p := Prepare(s, r, at).0;
        PrepareKeepsTimes(s, r, at);
        KeepsTimesStays(s, p);
        if Prepare(s, r, at).1 {
          EventsTimely(p, r, r.eqTime.value, at, |r.events|);
          StaysTwice(s, p, ApplyRecord(s, r, at));
        }
      case Registered(source, generation) =>
        RegisterKeepsTimes(s, source, generation, at);
        KeepsTimesStays(s, ApplyInput(s, at, input));
      case Removed(id) =>
        GapKeepsTimes(s, id, 0, FileRecreated);
        KeepsTimesStays(s, ApplyInput(s, at, input));
      case Gap(id, generation, reason) =>
        GapKeepsTimes(s, id, generation, reason);
        KeepsTimesStays(s, ApplyInput(s, at, input));
      case StableEof(id, generation) =>
        EofKeepsTimes(s, id, generation, at);
        KeepsTimesStays(s, ApplyInput(s, at, input));
    }
  }

  lemma StepTimely(s: Engine, step: Step, publish: Publisher)
    requires 0 < s.policy.maxRecordIds && Timely(s)
    ensures Timely(StepOnce(s, step, publish))
  {
    hide AdvanceTime, ApplyInput, Timely;
    ClockTimely(s, Max(s.now, step.at));
    assert Clocked(s, step.at) == s.(now := Max(s.now, step.at));
    if step.Apply? { InputTimely(Clocked(s, step.at), step.at, step.input); }
    TimeTimely(Changed(s, step), publish);
  }

  lemma {:induction false} TimelyOverRuns(policy: Policy, steps: seq<Step>, publish: Publisher)
    requires 0 < policy.maxRecordIds
    ensures Timely(Run(NewEngine(policy), steps, publish))
  {
    hide StepOnce, Timely;
    if steps == [] {
      StartsTimely(policy);
    } else {
      TimelyOverRuns(policy, steps[..|steps| - 1], publish);
      StepTimely(Run(NewEngine(policy), steps[..|steps| - 1], publish), steps[|steps| - 1], publish);
    }
  }

  lemma StartsTimely(policy: Policy)
    ensures Timely(NewEngine(policy))
  {}

  /** Every reachable non-empty book drains in three spaced ticks. */
  lemma ReachableBooksDrain(policy: Policy, steps: seq<Step>, t1: U64, t2: U64, t3: U64, publish: Publisher)
    requires policy.Valid()
    requires var s := Run(NewEngine(policy), steps, publish);
             s.encounters != map[] && s.now + policy.inactivityMs <= t1
    requires t1 + policy.endingGraceMs <= t2 && t2 + policy.heldMs <= t3
    ensures var s' := Run(Run(NewEngine(policy), steps, publish), [Tick(t1), Tick(t2), Tick(t3)], publish);
            s'.encounters == map[] && s'.ledger == [] && s'.assignments == map[]
  {
    hide Run, Timely, Partition;
    TimelyOverRuns(policy, steps, publish);
    PartitionOverRuns(policy, steps, publish);
    ThreeTicksDrain(Run(NewEngine(policy), steps, publish), t1, t2, t3, publish);
  }
}
