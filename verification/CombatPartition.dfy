/** Every live encounter's facts: duplicate-free, disjoint from the others',
    inside the ledger and in agreement with the assignments. */
module CombatPartition {
  import opened Foundations
  import opened CombatModel
  import opened CombatSteps

  ghost predicate NoDuplicates(facts: seq<nat>) {
    forall i, j | 0 <= i < j < |facts| :: facts[i] != facts[j]
  }

  /** The list of one encounter: no fact twice, each assigned to this encounter. */
  ghost predicate Sound(e: Encounter, id: EncounterId, assignments: map<nat, EncounterId>) {
    e.id == id && NoDuplicates(e.facts)
    && forall f | f in e.facts :: f in assignments && assignments[f] == id
  }

  ghost predicate Partition(s: Engine) {
    (forall id | id in s.encounters :: Sound(s.encounters[id], id, s.assignments))
    && (forall f | f in s.assignments :: f < |s.ledger|)
  }

  /** What the partition means for two encounters. */
  lemma PartitionIsDisjoint(s: Engine, a: EncounterId, b: EncounterId, f: nat)
    requires Partition(s) && a in s.encounters && b in s.encounters
    requires f in s.encounters[a].facts && f in s.encounters[b].facts
    ensures a == b && f < |s.ledger|
  {
    assert Sound(s.encounters[a], a, s.assignments) && Sound(s.encounters[b], b, s.assignments);
  }

  /** No list, id or assignment changes. */
  ghost predicate SameLists(s: Engine, s': Engine) {
    s'.encounters.Keys == s.encounters.Keys && s'.assignments == s.assignments && |s.ledger| <= |s'.ledger|
    && forall id | id in s.encounters :: SameList(s.encounters[id], s'.encounters[id])
  }

  predicate SameList(e: Encounter, e': Encounter) { e'.id == e.id && e'.facts == e.facts }

  lemma SameListsKeep(s: Engine, s': Engine)
    requires SameLists(s, s')
    ensures Partition(s) ==> Partition(s')
    ensures Exact(s) ==> Exact(s')
  {}

  /** The other half of the agreement: an index assigned to a live encounter is in its list. */
  ghost predicate Exact(s: Engine) {
    forall f | f in s.assignments && s.assignments[f] in s.encounters :: f in s.encounters[s.assignments[f]].facts
  }

  /** One unassigned fact goes to one encounter; an unknown encounter only gets the assignment. */
  ghost predicate AddsOne(s: Engine, s': Engine, id: EncounterId, f: nat) {
    s'.ledger == s.ledger && s'.assignments == s.assignments[f := id] && f < |s.ledger| && f !in s.assignments
    && s'.encounters.Keys == s.encounters.Keys
    && (forall x | x in s.encounters && x != id :: SameList(s.encounters[x], s'.encounters[x]))
    && (id in s.encounters ==> s'.encounters[id].id == s.encounters[id].id
                               && s'.encounters[id].facts == s.encounters[id].facts + [f])
  }

  lemma AddsOneKeeps(s: Engine, s': Engine, id: EncounterId, f: nat)
    requires AddsOne(s, s', id, f) && Partition(s)
    ensures Partition(s')
    ensures Exact(s) ==> Exact(s')
  {
    forall x | x in s'.encounters ensures Sound(s'.encounters[x], x, s'.assignments) {
      assert Sound(s.encounters[x], x, s.assignments);
      if x != id { assert SameList(s.encounters[x], s'.encounters[x]); }
    }
    if Exact(s) {
      forall g | g in s'.assignments && s'.assignments[g] in s'.encounters
        ensures g in s'.encounters[s'.assignments[g]].facts
      {
        var x := s'.assignments[g];
        if g == f { assert s'.encounters[id].facts[|s.encounters[id].facts|] == f; }
        else {
          assert g in s.encounters[x].facts;
          if x != id { assert SameList(s.encounters[x], s'.encounters[x]); }
        }
      }
    }
  }

  // ----- merging -----

  lemma AscendingNoDuplicates(xs: set<nat>)
    ensures NoDuplicates(Ascending(xs))
  {}

  /** The shape of a merge of two live encounters. */
  lemma MergeShape(s: Engine, left: EncounterId, right: EncounterId, chosen: EncounterId, other: EncounterId)
    requires left != right && left in s.encounters && right in s.encounters
    requires chosen == (if StrLe(left, right) then left else right) && other == (if chosen == left then right else left)
    ensures var s' := Merge(s, left, right).0;
            Merge(s, left, right).1 == Some(chosen)
            && s'.encounters.Keys == s.encounters.Keys - {other}
            && (forall x | x in s'.encounters && x != chosen :: s'.encounters[x] == s.encounters[x])
            && s'.encounters[chosen].id == s.encounters[chosen].id && s'.encounters[chosen].phase == Active
            && s'.encounters[chosen].facts
               == Ascending(FactSet(s.encounters[chosen].facts) + FactSet(s.encounters[other].facts))
            && s'.assignments == Redirect(s.assignments, other, chosen)
            && s'.sourceActive == Redirect(s.sourceActive, other, chosen)
  { hide Ascending, JoinTargets, Redirect; }

  lemma MergeKeeps(s: Engine, left: EncounterId, right: EncounterId)
    requires left != right && Partition(s)
    ensures Partition(Merge(s, left, right).0)
    ensures Exact(s) ==> Exact(Merge(s, left, right).0)
    ensures Merge(s, left, right).0.assignments.Keys == s.assignments.Keys
  {
    var chosen := if StrLe(left, right) then left else right;
    var other := if chosen == left then right else left;
    if chosen in s.encounters && other in s.encounters {
      MergeShape(s, left, right, chosen, other);
      MergedListsKeep(s, Merge(s, left, right).0, chosen, other);
    }
  }

  lemma MergedListsKeep(s: Engine, s': Engine, chosen: EncounterId, other: EncounterId)
    requires Partition(s) && chosen != other && chosen in s.encounters && other in s.encounters && s'.ledger == s.ledger
    requires s'.encounters.Keys == s.encounters.Keys - {other}
    requires forall x | x in s'.encounters && x != chosen :: s'.encounters[x] == s.encounters[x]
    requires s'.encounters[chosen].id == s.encounters[chosen].id
    requires s'.encounters[chosen].facts == Ascending(FactSet(s.encounters[chosen].facts) + FactSet(s.encounters[other].facts))
    requires s'.assignments == Redirect(s.assignments, other, chosen)
    ensures Partition(s') && (Exact(s) ==> Exact(s')) && s'.assignments.Keys == s.assignments.Keys
  {
    hide Ascending;
    var a, b := s.encounters[chosen], s.encounters[other];
    AscendingNoDuplicates(FactSet(a.facts) + FactSet(b.facts));
    assert Sound(a, chosen, s.assignments) && Sound(b, other, s.assignments);
    forall x | x in s'.encounters ensures Sound(s'.encounters[x], x, s'.assignments) {
      assert Sound(s.encounters[x], x, s.assignments);
    }
  }

  lemma UnionCounts(a: seq<nat>, b: seq<nat>)
    requires NoDuplicates(a) && NoDuplicates(b) && forall f | f in a :: f !in b
    ensures multiset(Ascending(FactSet(a) + FactSet(b))) == multiset(a) + multiset(b)
  {
    hide Ascending;
    var joined := Ascending(FactSet(a) + FactSet(b));
    AscendingNoDuplicates(FactSet(a) + FactSet(b));
    var mj: multiset<nat>, ma: multiset<nat>, mb: multiset<nat> := multiset(joined), multiset(a), multiset(b);
    forall f: nat ensures mj[f] == ma[f] + mb[f] {
      CountOnce(joined, f); CountOnce(a, f); CountOnce(b, f);
    }
  }

  /** A merge gives exactly the two lists together, each fact once. */
  lemma MergeIsUnion(s: Engine, left: EncounterId, right: EncounterId)
    requires left != right && left in s.encounters && right in s.encounters && Partition(s)
    ensures var (s', id) := Merge(s, left, right);
            id.Some? && id.value in {left, right}
            && s'.encounters.Keys == s.encounters.Keys - {left, right} + {id.value}
            && multiset(s'.encounters[id.value].facts)
               == multiset(s.encounters[left].facts) + multiset(s.encounters[right].facts)
  {
    hide Merge, Ascending;
    var chosen := if StrLe(left, right) then left else right;
    var other := if chosen == left then right else left;
    MergeShape(s, left, right, chosen, other);
    assert Sound(s.encounters[chosen], chosen, s.assignments) && Sound(s.encounters[other], other, s.assignments);
    UnionCounts(s.encounters[chosen].facts, s.encounters[other].facts);
  }

  lemma CountOnce(facts: seq<nat>, f: nat)
    requires NoDuplicates(facts)
    ensures var m: multiset<nat> := multiset(facts); m[f] == if f in facts then 1 else 0
  {
    if f in facts {
      var k :| 0 <= k < |facts| && facts[k] == f;
      assert facts == facts[..k] + [f] + facts[k + 1..];
      assert f !in facts[..k] && f !in facts[k + 1..];
    }
  }

  /** Merging does not depend on which of the two is named first. */
  lemma MergeSymmetric(s: Engine, left: EncounterId, right: EncounterId)
    requires left != right
    ensures Merge(s, left, right) == Merge(s, right, left)
  {
    hide Join, Redirect;
    StrLeTotal(left, right);
    if StrLe(left, right) && StrLe(right, left) { StrLeAntisymmetric(left, right); }
  }

  // ----- placing a damage fact -----

  lemma RoutedKeeps(s: Engine, fact: LedgerFact)
    requires fact.event.Damage? && Partition(s)
    ensures var r := Routed(s, fact).0;
            Partition(r) && (Exact(s) ==> Exact(r)) && r.assignments.Keys == s.assignments.Keys
  {
    hide Merge, Read, Reroute, Partition, Exact, Correlated;
    var v := Read(s, fact);
    var (s1, chosen) := Choose(s, fact.source, v.fingerprint);
    ChooseKeeps(s, fact.source, v.fingerprint);
    RerouteSameLists(s1, chosen, fact, v.target);
    SameListsKeep(s1, Reroute(s1, chosen, fact, v.target).0);
  }

  lemma ChooseKeeps(s: Engine, source: LogSource, fp: Fingerprint)
    requires Partition(s)
    ensures var r := Choose(s, source, fp).0;
            Partition(r) && (Exact(s) ==> Exact(r)) && r.assignments.Keys == s.assignments.Keys
  {
    hide Merge, Partition, Exact, Correlated;
    var similar := Correlated(s, source.server, fp);
    if similar != {} && source.id in s.sourceActive && s.sourceActive[source.id] != Least(similar) {
      MergeKeeps(s, s.sourceActive[source.id], Least(similar));
    }
  }

  lemma RerouteSameLists(s: Engine, chosen: Option<EncounterId>, fact: LedgerFact, target: TargetId)
    ensures SameLists(s, Reroute(s, chosen, fact, target).0)
  {}

  /** The minted encounter starts empty. */
  lemma MintKeeps(s: Engine, fact: LedgerFact, v: Reading)
    requires Partition(s)
    ensures var (r, id) := Mint(s, fact, v);
            Partition(r) && r.assignments == s.assignments && r.ledger == s.ledger
            && (Exact(s) ==> (Exact(r) <==> !(id.Some? && id.value !in s.encounters && Assigned(s, id.value))))
  {
    hide LateAfterClosure, MintId;
    var (r, id) := Mint(s, fact, v);
    if id.Some? && id.value !in s.encounters {
      assert r.encounters[id.value].facts == [];
      forall x | x in r.encounters ensures Sound(r.encounters[x], x, r.assignments) {
        if x != id.value { assert Sound(s.encounters[x], x, s.assignments); }
      }
      if Assigned(s, id.value) {
        var f :| f in s.assignments && s.assignments[f] == id.value;
        assert f !in r.encounters[id.value].facts;
      }
    }
  }

  /** Some fact was assigned to this id before. */
  ghost predicate Assigned(s: Engine, id: EncounterId) { exists f :: f in s.assignments && s.assignments[f] == id }

  /** Earlier assignments are left alone, and so is membership of the facts they name. */
  ghost predicate KeepsAssigned(s: Engine, s': Engine) {
    s'.encounters.Keys == s.encounters.Keys && s.assignments.Keys <= s'.assignments.Keys
    && (forall f | f in s.assignments :: s'.assignments[f] == s.assignments[f])
    && forall id, f | id in s.encounters && f in s.assignments ::
         f in s'.encounters[id].facts <==> f in s.encounters[id].facts
  }

  lemma AddsOneKeepsAssigned(s: Engine, s': Engine, id: EncounterId, f: nat)
    requires AddsOne(s, s', id, f)
    ensures KeepsAssigned(s, s')
  {
    forall x, g | x in s.encounters && g in s.assignments
      ensures g in s'.encounters[x].facts <==> g in s.encounters[x].facts
    {
      if x != id { assert SameList(s.encounters[x], s'.encounters[x]); }
    }
  }

  lemma KeepsAssignedTwice(a: Engine, b: Engine, c: Engine)
    requires KeepsAssigned(a, b) && KeepsAssigned(b, c)
    ensures KeepsAssigned(a, c)
  {}

  lemma BrokenStaysBroken(s: Engine, s': Engine)
    requires KeepsAssigned(s, s') && !Exact(s)
    ensures !Exact(s')
  {
    var f :| f in s.assignments && s.assignments[f] in s.encounters && f !in s.encounters[s.assignments[f]].facts;
    assert f in s'.assignments;
  }

  /** Promotion adds the promotable facts and nothing else. */
  lemma {:induction false} PromoteKeeps(s: Engine, id: EncounterId, source: SourceId, target: TargetId, anchor: EqSecond, n: nat)
    requires Partition(s) && n <= |s.ledger|
    ensures var r := PromoteUpTo(s, id, source, target, anchor, n);
            Partition(r) && (Exact(s) ==> Exact(r)) && KeepsAssigned(s, r)
            && forall f | f in r.assignments :: f in s.assignments || f < n
  {
    hide Partition, Exact, Promotable;
    if n == 0 {
      assert KeepsAssigned(s, s);
    } else {
      PromoteKeeps(s, id, source, target, anchor, n - 1);
      var before := PromoteUpTo(s, id, source, target, anchor, n - 1);
      if Promotable(s, n - 1, source, target, anchor) {
        assert n - 1 !in s.assignments by { PromotableUnassigned(s, n - 1, source, target, anchor); }
        var after := PromoteOne(before, id, n - 1);
        assert AddsOne(before, after, id, n - 1);
        AddsOneKeeps(before, after, id, n - 1);
        AddsOneKeepsAssigned(before, after, id, n - 1);
        KeepsAssignedTwice(s, before, after);
      }
    }
  }

  lemma PromotableUnassigned(s: Engine, i: nat, source: SourceId, target: TargetId, anchor: EqSecond)
    requires i < |s.ledger| && Promotable(s, i, source, target, anchor)
    ensures i !in s.assignments
  {}

  lemma StoreAddsOne(s: Engine, id: EncounterId, index: nat, v: Reading, contributes: bool)
    requires index < |s.ledger| && index !in s.assignments
    ensures AddsOne(s, Store(s, id, index, v, contributes), id, index)
  {}

  lemma AddMemberSameLists(s: Engine, id: EncounterId, source: LogSource)
    ensures SameLists(s, AddMember(s, id, source)) && AddMember(s, id, source).ledger == s.ledger
  {}

  lemma SameListsKeepAssigned(s: Engine, s': Engine)
    requires SameLists(s, s')
    ensures KeepsAssigned(s, s')
  {
    forall x, g | x in s.encounters && g in s.assignments
      ensures g in s'.encounters[x].facts <==> g in s.encounters[x].facts
    { assert SameList(s.encounters[x], s'.encounters[x]); }
  }

  lemma SettleKeeps(s: Engine, id: EncounterId, index: nat, v: Reading)
    requires Partition(s) && index < |s.ledger| && index !in s.assignments
    ensures var r := Settle(s, id, index, v);
            Partition(r) && (Exact(s) ==> Exact(r)) && KeepsAssigned(s, r)
  {
    hide Partition, Exact, Contributes, KnowsTarget, Store, AddMember, PromoteUpTo;
    var fact := s.ledger[index];
    if Contributes(s, id, v) || KnowsTarget(s, id, v.target) {
      var joined := AddMember(s, id, fact.source);
      AddMemberSameLists(s, id, fact.source);
      SameListsKeep(s, joined);
      SameListsKeepAssigned(s, joined);
      var stored := Store(joined, id, index, v, Contributes(s, id, v));
      StoreAddsOne(joined, id, index, v, Contributes(s, id, v));
      AddsOneKeeps(joined, stored, id, index);
      AddsOneKeepsAssigned(joined, stored, id, index);
      KeepsAssignedTwice(s, joined, stored);
      var active := stored.(sourceActive := stored.sourceActive[fact.source.id := id]);
      assert SameLists(stored, active);
      SameListsKeep(stored, active);
      SameListsKeepAssigned(stored, active);
      KeepsAssignedTwice(s, stored, active);
      PromoteKeeps(active, id, fact.source.id, v.target, fact.eqTime, |active.ledger|);
      KeepsAssignedTwice(s, active, Promote(active, id, fact.source.id, v.target, fact.eqTime));
    } else {
      assert SameLists(s, s);
      SameListsKeepAssigned(s, s);
    }
  }

  /** The mint branch creates an encounter under an id that old assignments still name. */
  ghost predicate MintsStale(s: Engine, fact: LedgerFact)
    requires fact.event.Damage?
  {
    MintsInto(s, fact).Some? && MintsInto(s, fact).value !in Routed(s, fact).0.encounters
    && Assigned(Routed(s, fact).0, MintsInto(s, fact).value)
  }

  /** Processing one new damage fact keeps the partition always, and keeps the
      agreement exact precisely when no stale id is minted. */
  lemma DamageKeeps(s: Engine, index: nat)
    requires Partition(s) && index < |s.ledger| && s.ledger[index].event.Damage? && index !in s.assignments
    ensures Partition(ProcessDamage(s, index))
    ensures Exact(s) ==> (Exact(ProcessDamage(s, index)) <==> !MintsStale(s, s.ledger[index]))
  {
    hide Partition, Exact, Routed, Mint, Settle, Read, Assigned;
    var fact := s.ledger[index];
    var routed := Routed(s, fact).0;
    RoutedKeeps(s, fact);
    MintKeeps(routed, fact, Read(s, fact));
    var (placed, chosen) := Place(s, fact);
    if chosen.Some? {
      SettleKeeps(placed, chosen.value, index, Read(s, fact));
      if !Exact(placed) { BrokenStaysBroken(placed, ProcessDamage(s, index)); }
    }
  }

  lemma AttemptKeeps(s: Engine, index: nat)
    requires Partition(s) && index < |s.ledger| && s.ledger[index].event.Attempt? && index !in s.assignments
    ensures Partition(ProcessAttempt(s, index)) && (Exact(s) ==> Exact(ProcessAttempt(s, index)))
  {
    hide Partition, Exact;
    var r := ProcessAttempt(s, index);
    if r != s {
      var id := s.sourceActive[s.ledger[index].source.id];
      assert AddsOne(s, r, id, index);
      AddsOneKeeps(s, r, id, index);
    }
  }

  lemma SlainInKnows(s: Engine, source: LogSource, target: TargetId)
    ensures SlainIn(s, source, target).Some? ==> KnowsTarget(s, SlainIn(s, source, target).value, target)
  {}

  lemma SlainKeeps(s: Engine, index: nat)
    requires Partition(s) && index < |s.ledger| && s.ledger[index].event.Slain? && index !in s.assignments
    ensures Partition(ProcessSlain(s, index)) && (Exact(s) ==> Exact(ProcessSlain(s, index)))
  {
    hide Partition, Exact, SlainIn;
    var fact := s.ledger[index];
    var target := Target(fact.source, fact.event.target);
    var chosen := SlainIn(s, fact.source, target);
    if chosen.Some? {
      var joined := AddMember(s, chosen.value, fact.source);
      AddMemberSameLists(s, chosen.value, fact.source);
      SameListsKeep(s, joined);
      SlainInKnows(s, fact.source, target);
      var r := ProcessSlain(s, index);
      assert AddsOne(joined, r, chosen.value, index);
      AddsOneKeeps(joined, r, chosen.value, index);
    }
  }

  // ----- events, records and runs -----

  ghost predicate StaleGuard(s: Engine) {
    s.ledger != [] && s.ledger[|s.ledger| - 1].event.Damage? ==> !MintsStale(s, s.ledger[|s.ledger| - 1])
  }

  lemma FactKeeps(s: Engine)
    requires Partition(s) && s.ledger != [] && |s.ledger| - 1 !in s.assignments
    ensures Partition(ProcessFact(s))
    ensures Exact(s) && StaleGuard(s) ==> Exact(ProcessFact(s))
  {
    hide Partition, Exact, ProcessDamage, ProcessAttempt, ProcessSlain, MintsStale;
    var index := |s.ledger| - 1;
    match s.ledger[index].event {
      case Damage(_, _, _, _, _, _, _, _) => DamageKeeps(s, index);
      case Attempt(_, _, _) => AttemptKeeps(s, index);
      case Slain(_, _) => SlainKeeps(s, index);
    }
  }

  lemma AppendKeeps(s: Engine, c: Engine, fact: LedgerFact)
    requires Partition(s) && c == s.(occurrences := c.occurrences)
    ensures var a := Append(c, fact);
            Partition(c) && Partition(a) && |a.ledger| - 1 !in a.assignments
            && (Exact(s) ==> Exact(c) && Exact(a))
  {}

  lemma EventKeeps(s: Engine, r: Record, now: U64, event: LogEvent)
    requires Partition(s) && r.eqTime.Some?
    ensures Partition(ApplyEvent(s, r, r.eqTime.value, now, event))
    ensures Exact(s) && EventGuarded(s, r, now, event, StaleGuard) ==> Exact(ApplyEvent(s, r, r.eqTime.value, now, event))
  {
    hide Partition, Exact, ProcessFact, MintsStale, StaleGuard, Replayed, CountOccurrence;
    var s' := ApplyEvent(s, r, r.eqTime.value, now, event);
    if event.Combat? {
      var c := CountOccurrence(s, r.id, r.eqTime.value, event.fact);
      CountsOnlyOccurrences(s, r.id, r.eqTime.value, event.fact);
      var fact := LedgerFact(r.id, r.source, r.eqTime.value, now, event.fact);
      AppendKeeps(s, c, fact);
      FactKeeps(Append(c, fact));
      OtherFactsUnguarded(Append(c, fact));
    } else {
      EvidenceSameLists(s, r, r.eqTime.value, now, event);
      SameListsKeep(s, s');
    }
  }

  lemma CountsOnlyOccurrences(s: Engine, id: RecordId, t: EqSecond, fact: FactEvent)
    ensures CountOccurrence(s, id, t, fact) == s.(occurrences := CountOccurrence(s, id, t, fact).occurrences)
  {}

  lemma OtherFactsUnguarded(s: Engine)
    ensures s.ledger != [] && !s.ledger[|s.ledger| - 1].event.Damage? ==> StaleGuard(s)
  {}

  lemma EvidenceSameLists(s: Engine, r: Record, t: EqSecond, now: U64, event: LogEvent)
    requires !event.Combat?
    ensures SameLists(s, ApplyEvent(s, r, t, now, event))
  {}

  lemma {:induction false} EventsKeep(s: Engine, r: Record, now: U64, n: nat)
    requires Partition(s) && r.eqTime.Some? && n <= |r.events|
    ensures Partition(ApplyEvents(s, r, r.eqTime.value, now, n))
    ensures Exact(s) && (forall k | 0 <= k < n ::
                           EventGuarded(ApplyEvents(s, r, r.eqTime.value, now, k), r, now, r.events[k], StaleGuard))
            ==> Exact(ApplyEvents(s, r, r.eqTime.value, now, n))
  {
    hide Partition, Exact, ApplyEvent, EventGuarded;
    if n > 0 {
      EventsKeep(s, r, now, n - 1);
      EventKeeps(ApplyEvents(s, r, r.eqTime.value, now, n - 1), r, now, r.events[n - 1]);
    }
  }

  /** Registration, gaps, admission and withdrawal never touch a list except to empty the book. */
  ghost predicate KeepsOrClears(s: Engine, s': Engine) {
    SameLists(s, s') || (s'.encounters == map[] && s'.assignments == map[])
  }

  lemma KeepsOrClearsKeep(s: Engine, s': Engine)
    requires KeepsOrClears(s, s') && Partition(s)
    ensures Partition(s') && (Exact(s) ==> Exact(s'))
  {}

  lemma RegisterSameLists(s: Engine, source: LogSource, generation: U64, now: U64)
    ensures SameLists(s, RegisterSource(s, source, generation, now))
  {}

  lemma GapSameLists(s: Engine, source: SourceId, generation: U64, reason: GapReason)
    ensures SameLists(s, MarkGap(s, source, generation, reason))
    ensures SameLists(s, RemoveSource(s, source))
  {}

  lemma AdmitSameLists(s: Engine, r: Record, now: U64, gap: Option<GapReason>)
    requires r.source.id in s.sources && 0 < s.policy.maxRecordIds
    ensures SameLists(s, Admit(s, r, now, gap))
  { hide Progress, GapSource; }

  lemma PrepareKeepsOrClears(s: Engine, r: Record, now: U64)
    requires 0 < s.policy.maxRecordIds
    ensures KeepsOrClears(s, Prepare(s, r, now).0)
  {
    hide RegisterSource, Admit, Judge, Usable, FactCount, SameLists;
    SameListsRefl(s);
    if !(r.id.source != r.source.id || r.id in s.accepted) {
      RegisterSameLists(s, r.source, r.id.generation, now);
      RegisterKnows(s, r.source, r.id.generation, now);
      var known := if r.source.id in s.sources then s else RegisterSource(s, r.source, r.id.generation, now);
      if Judge(known, r).Accept? {
        AdmitSameLists(known, r, now, Judge(known, r).gap);
        SameListsTwice(s, known, Admit(known, r, now, Judge(known, r).gap));
      }
    }
  }

  lemma SameListsRefl(s: Engine)
    ensures SameLists(s, s)
  {}

  lemma SameListsTwice(a: Engine, b: Engine, c: Engine)
    requires SameLists(a, b) && SameLists(b, c)
    ensures SameLists(a, c)
  {}

  lemma RecordKeeps(s: Engine, r: Record, now: U64)
    requires Partition(s) && 0 < s.policy.maxRecordIds
    ensures Partition(ApplyRecord(s, r, now))
    ensures Exact(s) && RecordGuarded(s, r, now, StaleGuard) ==> Exact(ApplyRecord(s, r, now))
  {
    hide Partition, Exact, Prepare, ApplyEvents, EventGuarded, KeepsOrClears;
    PrepareKeepsOrClears(s, r, now);
    var (p, reached) := Prepare(s, r, now);
    KeepsOrClearsKeep(s, p);
    if reached { EventsKeep(p, r, now, |r.events|); }
  }

  lemma InputKeeps(s: Engine, at: U64, input: Input)
    requires Partition(s) && 0 < s.policy.maxRecordIds
    ensures Partition(ApplyInput(s, at, input))
    ensures Exact(s) && (input.NewRecord? ==> RecordGuarded(s, input.record, at, StaleGuard)) ==> Exact(ApplyInput(s, at, input))
  {
    hide Partition, Exact, ApplyRecord, RegisterSource, MarkGap, RemoveSource, RecordGuarded, SameLists;
    match input {
      case Registered(source, generation) =>
        RegisterSameLists(s, source, generation, at);
        SameListsKeep(s, RegisterSource(s, source, generation, at));
      case Removed(source) =>
        GapSameLists(s, source, 0, FileRecreated);
        SameListsKeep(s, RemoveSource(s, source));
      case Gap(source, generation, reason) =>
        GapSameLists(s, source, generation, reason);
        SameListsKeep(s, MarkGap(s, source, generation, reason));
      case StableEof(source, generation) =>
        EofSameLists(s, source, generation, at);
        SameListsKeep(s, NoteStableEof(s, source, generation, at));
      case NewRecord(record) => RecordKeeps(s, record, at);
    }
  }

  lemma EofSameLists(s: Engine, source: SourceId, generation: U64, at: U64)
    ensures SameLists(s, NoteStableEof(s, source, generation, at))
  {}

  /** Expiry drops whole encounters; the last one takes the ledger and the assignments with it. */
  lemma TimeKeeps(s: Engine, now: U64, publish: Publisher)
    requires Partition(s)
    ensures Partition(AdvanceTime(s, now, publish)) && (Exact(s) ==> Exact(AdvanceTime(s, now, publish)))
  {
    hide ClosedSources;
    var s' := AdvanceTime(s, now, publish);
    forall id | id in s'.encounters ensures id in s.encounters && SameList(s.encounters[id], s'.encounters[id]) {}
    if s'.encounters != map[] || s.encounters == map[] {
      forall id | id in s'.encounters ensures Sound(s'.encounters[id], id, s'.assignments) {
        assert Sound(s.encounters[id], id, s.assignments);
      }
    }
  }

  lemma StepKeeps(s: Engine, step: Step, publish: Publisher)
    requires Partition(s) && 0 < s.policy.maxRecordIds
    ensures Partition(StepOnce(s, step, publish))
    ensures Exact(s) && StepGuarded(s, step, StaleGuard) ==> Exact(StepOnce(s, step, publish))
  {
    hide Partition, Exact, AdvanceTime, ApplyInput, RecordGuarded, SameLists;
    var c := Clocked(s, step.at);
    ClockSameLists(s, step.at);
    SameListsKeep(s, c);
    if step.Apply? { InputKeeps(c, step.at, step.input); }
    TimeKeeps(Changed(s, step), Max(s.now, step.at), publish);
  }

  lemma ClockSameLists(s: Engine, at: U64)
    ensures SameLists(s, Clocked(s, at))
  {}

  lemma StartsPartitioned(policy: Policy)
    ensures Partition(NewEngine(policy)) && Exact(NewEngine(policy))
  {}

  /** In every reachable state the facts are partitioned among the live encounters. */
  lemma {:induction false} PartitionOverRuns(policy: Policy, steps: seq<Step>, publish: Publisher)
    requires policy.Valid()
    ensures Partition(Run(NewEngine(policy), steps, publish))
  {
    hide Partition, StepOnce;
    if steps == [] {
      StartsPartitioned(policy);
    } else {
      PartitionOverRuns(policy, steps[..|steps| - 1], publish);
      StepKeeps(Run(NewEngine(policy), steps[..|steps| - 1], publish), steps[|steps| - 1], publish);
    }
  }

  /** The agreement is exact in every reachable state of a run that never mints an id
      still named by the assignments of an encounter that has gone. */
  lemma {:induction false} ExactOverRuns(policy: Policy, steps: seq<Step>, publish: Publisher)
    requires policy.Valid() && RunGuarded(NewEngine(policy), steps, publish, StaleGuard)
    ensures Exact(Run(NewEngine(policy), steps, publish))
  {
    hide Partition, Exact, StepOnce, StepGuarded;
    var s := NewEngine(policy);
    if steps == [] {
      StartsPartitioned(policy);
    } else {
      var init := steps[..|steps| - 1];
      forall k | 0 <= k < |init| ensures StepGuarded(Run(s, init[..k], publish), init[k], StaleGuard) {
        assert init[..k] == steps[..k];
      }
      ExactOverRuns(policy, init, publish);
      PartitionOverRuns(policy, init, publish);
      StepKeeps(Run(s, init, publish), steps[|steps| - 1], publish);
    }
  }
}
