/** Lost hits stay lost: a fact that is assigned but listed by no encounter of the book is
    never listed again as long as the ledger keeps it. */
module CombatLost {
  import opened Foundations
  import opened CombatModel
  import opened CombatSteps
  import opened CombatPartition
  import opened CombatHits
  import opened CombatHeld

  ghost predicate Lost(s: Engine, f: nat) { f in s.assignments && !Listed(s, f) }

  ghost predicate StaysLost(s: Engine, s': Engine) { forall f | Lost(s, f) :: Lost(s', f) }

  lemma StaysLostTwice(a: Engine, b: Engine, c: Engine)
    requires StaysLost(a, b) && StaysLost(b, c)
    ensures StaysLost(a, c)
  { hide Lost; }

  /** Assignments are kept and no list gains an assigned fact. */
  lemma NoListGains(s: Engine, s': Engine)
    requires s.assignments.Keys <= s'.assignments.Keys
    requires forall id, f | id in s'.encounters && f in s'.encounters[id].facts && f in s.assignments :: Listed(s, f)
    ensures StaysLost(s, s')
  {
    forall f | Lost(s, f) ensures Lost(s', f) {
      forall id ensures !ListedBy(s', id, f) {}
    }
  }

  lemma AssignedStaysLost(s: Engine, s': Engine)
    requires KeepsAssigned(s, s')
    ensures StaysLost(s, s')
  {
    forall id, f | id in s'.encounters && f in s'.encounters[id].facts && f in s.assignments ensures Listed(s, f) {
      assert ListedBy(s, id, f);
    }
    NoListGains(s, s');
  }

  lemma SameListsStayLost(s: Engine, s': Engine)
    requires SameLists(s, s')
    ensures StaysLost(s, s')
  {
    hide SameLists, KeepsAssigned, StaysLost;
    SameListsKeepAssigned(s, s');
    AssignedStaysLost(s, s');
  }

  // ----- a damage fact -----

  lemma MergeStaysLost(s: Engine, left: EncounterId, right: EncounterId)
    requires left != right
    ensures StaysLost(s, Merge(s, left, right).0)
  {
    var chosen := if StrLe(left, right) then left else right;
    var other := if chosen == left then right else left;
    if chosen in s.encounters && other in s.encounters {
      MergeShape(s, left, right, chosen, other);
      var r := Merge(s, left, right).0;
      hide Merge, Ascending, StaysLost, Listed;
      forall id, f | id in r.encounters && f in r.encounters[id].facts && f in s.assignments ensures Listed(s, f) {
        MergedFrom(s, r, chosen, other, id, f);
      }
      NoListGains(s, r);
    }
  }

  lemma MergedFrom(s: Engine, r: Engine, chosen: EncounterId, other: EncounterId, id: EncounterId, f: nat)
    requires chosen in s.encounters && other in s.encounters && r.encounters.Keys == s.encounters.Keys - {other}
    requires forall x | x in r.encounters && x != chosen :: r.encounters[x] == s.encounters[x]
    requires chosen in r.encounters
             && r.encounters[chosen].facts == Ascending(FactSet(s.encounters[chosen].facts) + FactSet(s.encounters[other].facts))
    requires id in r.encounters && f in r.encounters[id].facts
    ensures Listed(s, f)
  {
    hide Ascending;
    assert id != chosen ==> ListedBy(s, id, f);
    assert id == chosen ==> ListedBy(s, chosen, f) || ListedBy(s, other, f);
  }

  lemma RoutedStaysLost(s: Engine, fact: LedgerFact)
    requires fact.event.Damage?
    ensures StaysLost(s, Routed(s, fact).0)
  {
    hide Merge, Read, Reroute, StaysLost, Correlated;
    var v := Read(s, fact);
    var (s1, chosen) := Choose(s, fact.source, v.fingerprint);
    SameListsRefl(s);
    SameListsStayLost(s, s);
    var similar := Correlated(s, fact.source.server, v.fingerprint);
    if similar != {} && fact.source.id in s.sourceActive && s.sourceActive[fact.source.id] != Least(similar) {
      MergeStaysLost(s, s.sourceActive[fact.source.id], Least(similar));
    }
    RerouteSameLists(s1, chosen, fact, v.target);
    SameListsStayLost(s1, Reroute(s1, chosen, fact, v.target).0);
    StaysLostTwice(s, s1, Reroute(s1, chosen, fact, v.target).0);
  }

  lemma MintStaysLost(s: Engine, fact: LedgerFact, v: Reading)
    ensures StaysLost(s, Mint(s, fact, v).0)
  {
    hide LateAfterClosure, MintId, StaysLost, Listed;
    var r := Mint(s, fact, v).0;
    forall id, f | id in r.encounters && f in r.encounters[id].facts && f in s.assignments ensures Listed(s, f) {
      ListedHere(s, id, f);
    }
    NoListGains(s, r);
  }

  lemma ListedHere(s: Engine, id: EncounterId, f: nat)
    ensures ListedBy(s, id, f) ==> Listed(s, f)
  {}

  lemma DamageStaysLost(s: Engine, index: nat)
    requires Partition(s) && index < |s.ledger| && s.ledger[index].event.Damage? && index !in s.assignments
    ensures StaysLost(s, ProcessDamage(s, index))
  {
    hide Partition, Routed, Mint, Settle, Read, StaysLost, KeepsAssigned, Exact;
    var fact := s.ledger[index];
    var v, routed := Read(s, fact), Routed(s, fact).0;
    RoutedKeeps(s, fact);
    RoutedStaysLost(s, fact);
    MintKeeps(routed, fact, v);
    MintStaysLost(routed, fact, v);
    var (placed, chosen) := Place(s, fact);
    if placed != routed { StaysLostTwice(s, routed, placed); }
    if chosen.Some? {
      SettleKeeps(placed, chosen.value, index, v);
      AssignedStaysLost(placed, ProcessDamage(s, index));
      StaysLostTwice(s, placed, ProcessDamage(s, index));
    }
  }

  // ----- other facts, records, time -----

  lemma AttemptStaysLost(s: Engine, index: nat)
    requires index < |s.ledger| && s.ledger[index].event.Attempt? && index !in s.assignments
    ensures StaysLost(s, ProcessAttempt(s, index))
  {
    hide KeepsAssigned;
    var r := ProcessAttempt(s, index);
    if r != s {
      var id := s.sourceActive[s.ledger[index].source.id];
      assert AddsOne(s, r, id, index);
      AddsOneKeepsAssigned(s, r, id, index);
      AssignedStaysLost(s, r);
    }
  }

  lemma SlainStaysLost(s: Engine, index: nat)
    requires index < |s.ledger| && s.ledger[index].event.Slain? && index !in s.assignments
    ensures StaysLost(s, ProcessSlain(s, index))
  {
    hide SlainIn, KeepsAssigned;
    var fact := s.ledger[index];
    var target := Target(fact.source, fact.event.target);
    var chosen := SlainIn(s, fact.source, target);
    if chosen.Some? {
      var joined := AddMember(s, chosen.value, fact.source);
      AddMemberSameLists(s, chosen.value, fact.source);
      SameListsStayLost(s, joined);
      SlainInKnows(s, fact.source, target);
      var r := ProcessSlain(s, index);
      assert AddsOne(joined, r, chosen.value, index);
      AddsOneKeepsAssigned(joined, r, chosen.value, index);
      AssignedStaysLost(joined, r);
      StaysLostTwice(s, joined, r);
    }
  }

  lemma FactStaysLost(s: Engine)
    requires Partition(s) && s.ledger != [] && |s.ledger| - 1 !in s.assignments
    ensures StaysLost(s, ProcessFact(s))
  {
    hide Partition, StaysLost, ProcessDamage, ProcessAttempt, ProcessSlain;
    var index := |s.ledger| - 1;
    match s.ledger[index].event {
      case Damage(_, _, _, _, _, _, _, _) => DamageStaysLost(s, index);
      case Attempt(_, _, _) => AttemptStaysLost(s, index);
      case Slain(_, _) => SlainStaysLost(s, index);
    }
  }

  lemma EventStaysLost(s: Engine, r: Record, now: U64, event: LogEvent)
    requires Partition(s) && r.eqTime.Some?
    ensures StaysLost(s, ApplyEvent(s, r, r.eqTime.value, now, event))
  {
    hide Partition, Exact, StaysLost, ProcessFact, Replayed, CountOccurrence;
    var s' := ApplyEvent(s, r, r.eqTime.value, now, event);
    if event.Combat? {
      var c := CountOccurrence(s, r.id, r.eqTime.value, event.fact);
      CountsOnlyOccurrences(s, r.id, r.eqTime.value, event.fact);
      var a := Append(c, LedgerFact(r.id, r.source, r.eqTime.value, now, event.fact));
      AppendKeeps(s, c, LedgerFact(r.id, r.source, r.eqTime.value, now, event.fact));
      assert SameLists(s, c) && SameLists(s, a);
      SameListsStayLost(s, c);
      SameListsStayLost(s, a);
      FactStaysLost(a);
      StaysLostTwice(s, a, ProcessFact(a));
    } else {
      EvidenceSameLists(s, r, r.eqTime.value, now, event);
      SameListsStayLost(s, s');
    }
  }

  lemma {:induction false} EventsStayLost(s: Engine, r: Record, now: U64, n: nat)
    requires Partition(s) && r.eqTime.Some? && n <= |r.events|
    ensures StaysLost(s, ApplyEvents(s, r, r.eqTime.value, now, n))
  {
    hide Partition, Exact, ApplyEvent, EventGuarded, StaysLost, SameLists;
    if n == 0 {
      SameListsRefl(s);
      SameListsStayLost(s, s);
    } else {
      var before := ApplyEvents(s, r, r.eqTime.value, now, n - 1);
      EventsStayLost(s, r, now, n - 1);
      EventsKeep(s, r, now, n - 1);
      EventStaysLost(before, r, now, r.events[n - 1]);
      StaysLostTwice(s, before, ApplyEvents(s, r, r.eqTime.value, now, n));
    }
  }

  lemma PrepareSameLists(s: Engine, r: Record, now: U64)
    requires 0 < s.policy.maxRecordIds && !Withdraws(s, r, now)
    ensures SameLists(s, Prepare(s, r, now).0)
  {
    hide RegisterSource, Admit, Judge, Usable, FactCount, SameLists;
    SameListsRefl(s);
    if !(r.id.source != r.source.id || r.id in s.accepted) {
      RegisterSameLists(s, r.source, r.id.generation, now);
      RegisterHarmless(s, r.source, r.id.generation, now);
      var known := if r.source.id in s.sources then s else RegisterSource(s, r.source, r.id.generation, now);
      if Judge(known, r).Accept? {
        AdmitSameLists(known, r, now, Judge(known, r).gap);
        AdmitHarmless(known, r, now, Judge(known, r).gap);
        SameListsTwice(s, known, Admit(known, r, now, Judge(known, r).gap));
      }
    }
  }

  lemma RecordStaysLost(s: Engine, r: Record, now: U64)
    requires Partition(s) && 0 < s.policy.maxRecordIds && !Withdraws(s, r, now)
    ensures StaysLost(s, ApplyRecord(s, r, now))
  {
    hide Partition, Exact, Prepare, ApplyEvents, StaysLost, SameLists, Withdraws;
    PrepareSameLists(s, r, now);
    var (p, reached) := Prepare(s, r, now);
    SameListsKeep(s, p);
    SameListsStayLost(s, p);
    if reached {
      EventsStayLost(p, r, now, |r.events|);
      StaysLostTwice(s, p, ApplyRecord(s, r, now));
    }
  }

  lemma InputStaysLost(s: Engine, at: U64, input: Input)
    requires Partition(s) && 0 < s.policy.maxRecordIds && !(input.NewRecord? && Withdraws(s, input.record, at))
    ensures StaysLost(s, ApplyInput(s, at, input))
  {
    hide Partition, ApplyRecord, RegisterSource, MarkGap, RemoveSource, SameLists, StaysLost, Withdraws;
    match input {
      case Registered(source, generation) =>
        RegisterSameLists(s, source, generation, at);
        SameListsStayLost(s, RegisterSource(s, source, generation, at));
      case Removed(source) =>
        GapSameLists(s, source, 0, FileRecreated);
        SameListsStayLost(s, RemoveSource(s, source));
      case Gap(source, generation, reason) =>
        GapSameLists(s, source, generation, reason);
        SameListsStayLost(s, MarkGap(s, source, generation, reason));
      case StableEof(source, generation) =>
        EofSameLists(s, source, generation, at);
        SameListsStayLost(s, NoteStableEof(s, source, generation, at));
      case NewRecord(record) => RecordStaysLost(s, record, at);
    }
  }

  /** Time that leaves the ledger only drops whole encounters. */
  lemma TimeStaysLost(s: Engine, now: U64, publish: Publisher)
    requires AdvanceTime(s, now, publish).ledger != []
    ensures StaysLost(s, AdvanceTime(s, now, publish))
  {
    hide ClosedSources, StaysLost, Listed;
    var s' := AdvanceTime(s, now, publish);
    forall id, f | id in s'.encounters && f in s'.encounters[id].facts && f in s.assignments ensures Listed(s, f) {
      ListedHere(s, id, f);
    }
    NoListGains(s, s');
  }

  lemma StepStaysLost(s: Engine, step: Step, publish: Publisher)
    requires Partition(s) && 0 < s.policy.maxRecordIds && !StepWithdraws(s, step) && StepOnce(s, step, publish).ledger != []
    ensures StaysLost(s, StepOnce(s, step, publish))
  {
    hide Partition, Exact, AdvanceTime, ApplyInput, SameLists, StaysLost, Withdraws;
    var c := Clocked(s, step.at);
    ClockSameLists(s, step.at);
    SameListsKeep(s, c);
    SameListsStayLost(s, c);
    var changed := Changed(s, step);
    if step.Apply? {
      InputStaysLost(c, step.at, step.input);
      StaysLostTwice(s, c, changed);
    }
    TimeStaysLost(changed, Max(s.now, step.at), publish);
    StaysLostTwice(s, changed, StepOnce(s, step, publish));
  }

  /** Over any run: what is lost at step j is lost at every later step until the ledger is
      emptied, by a withdrawal or with the last encounter. */
  lemma {:induction false} LostForGood(policy: Policy, steps: seq<Step>, publish: Publisher, j: nat, k: nat, f: nat)
    requires policy.Valid() && j <= k <= |steps|
    requires forall i | j <= i < k :: !StepWithdraws(Run(NewEngine(policy), steps[..i], publish), steps[i])
    requires forall i | j < i <= k :: Run(NewEngine(policy), steps[..i], publish).ledger != []
    requires Lost(Run(NewEngine(policy), steps[..j], publish), f)
    ensures Lost(Run(NewEngine(policy), steps[..k], publish), f)
    decreases k
  {
    hide Lost, Partition, StepOnce, Run, StepWithdraws;
    var s := NewEngine(policy);
    if j < k {
      LostForGood(policy, steps, publish, j, k - 1, f);
      PartitionOverRuns(policy, steps[..k - 1], publish);
      RunStep(s, steps, publish, k - 1);
      assert steps[..k - 1 + 1] == steps[..k];
      StepStaysLost(Run(s, steps[..k - 1], publish), steps[k - 1], publish);
    }
  }
}
