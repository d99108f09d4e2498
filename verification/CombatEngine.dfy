/** The combat engine as the object it is: every method is proved against the
    function of CombatSteps that states what it does to the whole state.
    crates/eqcombat/src/engine.rs, `CombatEngine`. */
module CombatEngines {
  import opened Foundations
  import opened CombatModel
  import opened CombatSteps
  import opened CombatDeadlines
  import opened Standings

  /** The first key, in map order, of those that a search matched. */
  method FirstOf(ids: set<string>) returns (first: Option<string>)
    ensures first == if ids == {} then None else Some(Least(ids))
  {
    if ids == {} { return None; }
    var best :| best in ids;
    StrLeReflexive(best);
    var rest := ids - {best};
    while rest != {}
      invariant rest <= ids && best in ids && forall id | id in ids - rest :: StrLe(best, id)
      decreases |rest|
    {
      var id :| id in rest;
      StrLeTotal(id, best);
      StrLeReflexive(id);
      if !StrLe(best, id) {
        forall k | k in ids - rest ensures StrLe(id, k) { StrLeTransitive(id, best, k); }
        best := id;
      }
      rest := rest - {id};
    }
    LeastUnique(ids, best);
    first := Some(best);
  }

  class CombatEngine {
    const policy: Policy
    var sources: map<SourceId, SourceState>
    var accepted: set<RecordId>
    var acceptedOrder: seq<RecordId>
    var occurrences: map<Occurrence, U64>
    var ledger: seq<LedgerFact>
    var assignments: map<nat, EncounterId>
    var encounters: map<EncounterId, Encounter>
    var sourceActive: map<SourceId, EncounterId>
    var verified: set<Participant>
    var ownership: seq<Claim>
    var now: U64

    function View(): Engine
      reads this
    {
      Engine(policy, sources, accepted, acceptedOrder, occurrences, ledger, assignments, encounters,
             sourceActive, verified, ownership, now)
    }

    constructor (policy: Policy)
      requires policy.Valid()
      ensures View() == NewEngine(policy)
    {
      this.policy := policy;
      sources, accepted, acceptedOrder, occurrences := map[], {}, [], map[];
      ledger, assignments, encounters, sourceActive := [], map[], map[], map[];
      verified, ownership, now := {}, [], 0;
    }

    // ----- sources -----

    method Register(source: LogSource, generation: U64, at: U64)
      modifies this`verified, this`sources, this`encounters
      ensures View() == RegisterSource(old(View()), source, generation, at)
    {
      verified := verified + {Personal(source)};
      if source.id in sources {
        var st := sources[source.id];
        if st.generation != generation || st.source != source || !st.present {
          st := st.(historyFloor := MaxOpt(st.historyFloor, st.closedThrough),
                    continuity := (st.continuity + 1) % U64_LIMIT, generation := generation,
                    lastSequence := None, observed := None, closedThrough := None,
                    eofSecond := None, eofFirstAt := None, eofPasses := 0,
                    registeredAt := at, lastProgressAt := at);
        }
        sources := sources[source.id := st.(source := source, present := true)];
      } else {
        sources := sources[source.id := SourceState(source, generation, true, at, 0, None, None, None, at, None, None, None, 0, None)];
      }
      JoinAllManaged(source);
    }

    method JoinAllManaged(source: LogSource)
      modifies this`encounters
      ensures encounters == map e | e in old(encounters) :: JoinManaged(old(encounters)[e], source)
    {
      var rest := encounters.Keys;
      while rest != {}
        invariant encounters.Keys == old(encounters).Keys && rest <= encounters.Keys
        invariant forall e | e in encounters ::
          encounters[e] == if e in rest then old(encounters)[e] else JoinManaged(old(encounters)[e], source)
        decreases |rest|
      {
        var id :| id in rest;
        var e := encounters[id];
        if !e.phase.Held? && SameServer(e.server, Personal(source).server) {
          encounters := encounters[id := e.(managed := e.managed + {Personal(source)})];
        }
        rest := rest - {id};
      }
    }

    method MarkAllPartial(source: SourceId)
      modifies this`encounters
      ensures encounters == MarkPartial(old(encounters), source)
    {
      var rest := encounters.Keys;
      while rest != {}
        invariant encounters.Keys == old(encounters).Keys && rest <= encounters.Keys
        invariant forall e | e in encounters ::
          encounters[e] == if e in rest then old(encounters)[e] else PartialEncounter(old(encounters)[e], source)
        decreases |rest|
      {
        var id :| id in rest;
        var e := encounters[id];
        if source in e.sources && !e.phase.Held? {
          encounters := encounters[id := e.(partial := e.partial + {source})];
        }
        rest := rest - {id};
      }
    }

    method Remove(source: SourceId)
      modifies this`sources, this`encounters
      ensures View() == RemoveSource(old(View()), source)
    {
      if source in sources { sources := sources[source := sources[source].(present := false)]; }
      MarkAllPartial(source);
    }

    method Gapped(source: SourceId, generation: U64, reason: GapReason)
      modifies this`sources, this`encounters
      ensures View() == MarkGap(old(View()), source, generation, reason)
    {
      if source in sources {
        var st := sources[source];
        st := st.(historyFloor := MaxOpt(st.historyFloor, st.closedThrough),
                  continuity := (st.continuity + 1) % U64_LIMIT, generation := generation, lastSequence := None,
                  eofSecond := None, eofFirstAt := None, eofPasses := 0);
        if Resets(reason) { st := st.(observed := None, closedThrough := None); }
        sources := sources[source := st];
      }
      MarkAllPartial(source);
    }

    method StableEofSeen(source: SourceId, generation: U64, at: U64)
      modifies this`sources
      ensures View() == NoteStableEof(old(View()), source, generation, at)
    {
      if source !in sources { return; }
      var st := sources[source];
      if st.generation != generation || st.observed.None? { return; }
      if st.eofSecond == st.observed {
        sources := sources[source := st.(eofPasses := Min(st.eofPasses + 1, 255))];
      } else {
        sources := sources[source := st.(eofSecond := st.observed, eofFirstAt := Some(at), eofPasses := 1)];
      }
    }

    // ----- records -----

    method RememberRecord(id: RecordId)
      requires 0 < policy.maxRecordIds
      modifies this`accepted, this`acceptedOrder
      ensures View() == Remember(old(View()), id)
    {
      accepted := accepted + {id};
      acceptedOrder := acceptedOrder + [id];
      ghost var order, all := acceptedOrder, accepted;
      ghost var n := 0;
      while |acceptedOrder| > policy.maxRecordIds
        invariant n <= |order| && acceptedOrder == order[n..]
        invariant n > 0 ==> |order| - n >= policy.maxRecordIds
        invariant accepted == all - (set i | 0 <= i < n :: order[i])
      {
        accepted := accepted - {acceptedOrder[0]};
        acceptedOrder := acceptedOrder[1..];
        n := n + 1;
      }
    }

    /** The record is accepted: gap handling, the window of ids, the source's progress. */
    method AdmitRecord(r: Record, at: U64, gap: Option<GapReason>)
      requires r.source.id in sources && 0 < policy.maxRecordIds
      modifies this`sources, this`encounters, this`accepted, this`acceptedOrder
      ensures View() == Admit(old(View()), r, at, gap)
    {
      hide Remember, Progress, GapSource, MarkPartial;
      if gap.Some? { Gapped(r.source.id, r.id.generation, gap.value); }
      RememberRecord(r.id);
      assert sources == Remember(if gap.Some? then MarkGap(old(View()), r.source.id, r.id.generation, gap.value) else old(View()), r.id).sources;
      sources := sources[r.source.id := Progress(sources[r.source.id], r, at)];
    }

    /** `apply_record` up to its event loop; `reached` says whether the loop runs. */
    method PrepareRecord(r: Record, at: U64) returns (reached: bool)
      requires 0 < policy.maxRecordIds
      modifies this
      ensures (View(), reached) == Prepare(old(View()), r, at)
    {
      hide RegisterSource, Admit, Judge, Usable, FactCount;
      if r.id.source != r.source.id || r.id in accepted { return false; }
      if r.source.id !in sources { RegisterUnknown(r.source, r.id.generation, at); }
      var verdict := Judge(View(), r);
      if verdict.Reject? { return false; }
      AdmitRecord(r, at, verdict.gap);
      reached := Usable(View(), r);
      if reached && |ledger| + FactCount(r.events) > policy.maxLedgerFacts {
        encounters, sourceActive, ledger, assignments := map[], map[], [], map[];
      }
    }

    method RegisterUnknown(source: LogSource, generation: U64, at: U64)
      modifies this`verified, this`sources, this`encounters
      ensures View() == RegisterSource(old(View()), source, generation, at) && source.id in sources
    { Register(source, generation, at); }

    method TakeRecord(r: Record, at: U64)
      requires 0 < policy.maxRecordIds
      modifies this
      ensures View() == ApplyRecord(old(View()), r, at)
    {
      hide Prepare, ApplyEvent;
      var reached := PrepareRecord(r, at);
      if reached {
        ghost var start := View();
        var t := r.eqTime.value;
        for i := 0 to |r.events|
          invariant View() == ApplyEvents(start, r, t, at, i)
        {
          TakeEvent(r, t, at, r.events[i]);
        }
      }
    }

    method TakeEvent(r: Record, t: EqSecond, at: U64, event: LogEvent)
      modifies this
      ensures View() == ApplyEvent(old(View()), r, t, at, event)
    {
      hide CountOccurrence, Replayed, ProcessFact;
      match event
      case Combat(fact) => TakeFact(r, t, at, fact);
      case WhoResult(character) =>
        verified := verified + {ParticipantOf(r.source.server, character)};
      case OwnershipClaimed(pet, owner) =>
        var who := Resolve(r.source, owner);
        verified := verified + {who};
        ownership := ownership + [Claim(Lower(r.source.server), Lower(pet), who, t, r.source.id)];
      case PlayerEvidence(player) =>
        verified := verified + {Resolve(r.source, player)};
      case ZoneChanged(zone) =>
        if r.source.id in sources {
          sources := sources[r.source.id := sources[r.source.id].(zone := Some(zone))];
        }
      case Ignored =>
    }

    /** A combat fact reaches the ledger unless an earlier generation already showed it. */
    method TakeFact(r: Record, t: EqSecond, at: U64, fact: FactEvent)
      modifies this
      ensures View() == ApplyEvent(old(View()), r, t, at, Combat(fact))
    {
      hide CountOccurrence, Replayed, ProcessDamage, ProcessAttempt, ProcessSlain;
      var replayed := SeenBefore(r.id, t, fact);
      if replayed { return; }
      ledger := ledger + [LedgerFact(r.id, r.source, t, at, fact)];
      ghost var appended := View();
      match fact {
        case Damage(_, _, _, _, _, _, _, _) => TakeDamage(|ledger| - 1);
        case Attempt(_, _, _) => TakeAttempt(|ledger| - 1);
        case Slain(_, _) => TakeSlain(|ledger| - 1);
      }
      assert View() == ProcessFact(appended);
    }

    /** `is_replayed_occurrence`: count this occurrence, then look for an earlier
        generation that showed the same content at least as often. */
    method SeenBefore(id: RecordId, t: EqSecond, fact: FactEvent) returns (replayed: bool)
      modifies this`occurrences
      ensures View() == CountOccurrence(old(View()), id, t, fact)
      ensures replayed <==> Replayed(View(), id, t, fact)
    {
      var key := Occurrence(id.source, id.generation, t, fact);
      if |occurrences| >= policy.maxRecordIds && key !in occurrences { occurrences := map[]; }
      var count := SatAdd(if key in occurrences then occurrences[key] else 0, 1);
      occurrences := occurrences[key := count];
      var most: U64, rest := 0, occurrences.Keys;
      while rest != {}
        invariant rest <= occurrences.Keys
        invariant count <= most <==>
          exists k :: k in occurrences.Keys - rest && EarlierShowing(k, id, t, fact) && count <= occurrences[k]
        decreases |rest|
      {
        var k :| k in rest;
        if EarlierShowing(k, id, t, fact) && occurrences[k] > most { most := occurrences[k]; }
        rest := rest - {k};
      }
      replayed := count <= most;
    }

    static predicate EarlierShowing(k: Occurrence, id: RecordId, t: EqSecond, fact: FactEvent) {
      k.source == id.source && k.generation < id.generation && k.second == t && k.content == fact
    }

    // ----- damage -----

    method TakeDamage(index: nat)
      requires index < |ledger| && ledger[index].event.Damage?
      modifies this`encounters, this`assignments, this`sourceActive
      ensures View() == ProcessDamage(old(View()), index)
    {
      hide Read, Choose, Reroute, Mint, Settle;
      var fact := ledger[index];
      var v := Read(View(), fact);
      var chosen := ChooseEncounter(fact.source, v.fingerprint);
      var route := RerouteFact(chosen, fact, v.target);
      if route.Dropped? { return; }
      var id := if route.Into? then Some(route.id) else None;
      if route.Unrouted? { id := MintEncounter(fact, v); }
      if id.None? { return; }
      SettleFact(id.value, index, v);
    }

    method ChooseEncounter(source: LogSource, fp: Fingerprint) returns (chosen: Option<EncounterId>)
      modifies this`encounters, this`assignments, this`sourceActive
      ensures (View(), chosen) == Choose(old(View()), source, fp)
    {
      hide Merge;
      var current := if source.id in sourceActive then Some(sourceActive[source.id]) else None;
      var similar := set id | id in encounters && !encounters[id].phase.Held?
                              && SameServer(encounters[id].server, source.server) && fp in encounters[id].fingerprints;
      assert similar == Correlated(View(), source.server, fp);
      var correlated := FirstOf(similar);
      if current.Some? && correlated.Some? && current.value != correlated.value {
        chosen := MergeEncounters(current.value, correlated.value);
      } else {
        chosen := if current.Some? then current else correlated;
      }
    }

    method MergeEncounters(left: EncounterId, right: EncounterId) returns (merged: Option<EncounterId>)
      requires left != right
      modifies this`encounters, this`assignments, this`sourceActive
      ensures (View(), merged) == Merge(old(View()), left, right)
    {
      hide Join;
      var chosen := if StrLe(left, right) then left else right;
      var other := if chosen == left then right else left;
      if chosen !in encounters { return Some(other); }
      if other !in encounters { return Some(chosen); }
      var joined := JoinEncounters(encounters[chosen], encounters[other]);
      assignments := Redirect(assignments, other, chosen);
      sourceActive := Redirect(sourceActive, other, chosen);
      encounters := (encounters - {chosen, other})[chosen := joined];
      merged := Some(chosen);
    }

    static method JoinEncounters(chosen: Encounter, other: Encounter) returns (e: Encounter)
      ensures e == Join(chosen, other)
    {
      var facts := SortedFacts(FactSet(chosen.facts + other.facts));
      assert FactSet(chosen.facts + other.facts) == FactSet(chosen.facts) + FactSet(other.facts);
      var targets := JoinTargetMaps(chosen.targets, other.targets);
      e := chosen.(sources := chosen.sources + other.sources, continuity := chosen.continuity + other.continuity,
                   partial := chosen.partial + other.partial, managed := chosen.managed + other.managed,
                   targets := targets, facts := facts, fingerprints := chosen.fingerprints + other.fingerprints,
                   startEq := Min(chosen.startEq, other.startEq), endEq := Max(chosen.endEq, other.endEq),
                   lastSustainEq := Max(chosen.lastSustainEq, other.lastSustainEq),
                   startReceipt := Min(chosen.startReceipt, other.startReceipt),
                   lastSustainReceipt := Max(chosen.lastSustainReceipt, other.lastSustainReceipt),
                   phase := Active, frozen := None);
    }

    static method JoinTargetMaps(mine: map<TargetId, TargetState>, theirs: map<TargetId, TargetState>)
      returns (targets: map<TargetId, TargetState>)
      ensures targets == JoinTargets(mine, theirs)
    {
      hide JoinTargets, JoinedSoFar;
      targets := mine;
      var rest := theirs.Keys;
      NothingJoined(mine, theirs);
      while rest != {}
        invariant rest <= theirs.Keys && targets == JoinedSoFar(mine, theirs, rest)
        decreases |rest|
      {
        var t :| t in rest;
        JoinStep(mine, theirs, rest, t);
        if t in targets {
          var current, joining := targets[t], theirs[t];
          targets := targets[t := current.(firstDamage := Min(current.firstDamage, joining.firstDamage),
                                           lastDamage := Max(current.lastDamage, joining.lastDamage),
                                           terminal := current.terminal && joining.terminal,
                                           terminalAt := MaxOpt(current.terminalAt, joining.terminalAt))];
        } else {
          targets := targets[t := theirs[t]];
        }
        rest := rest - {t};
      }
      AllJoined(mine, theirs);
    }

    static method SmallestFact(xs: set<nat>) returns (x: nat)
      requires xs != {}
      ensures x in xs && forall y | y in xs :: x <= y
    {
      ghost var least := LeastOf(xs);
      x :| x in xs && forall y | y in xs :: x <= y;
    }

    static method SortedFacts(xs: set<nat>) returns (r: seq<nat>)
      ensures r == Ascending(xs)
    {
      hide Ascending;
      r := [];
      var rest := xs;
      AscendingNone();
      while rest != {}
        invariant Ascending(xs) == r + Ascending(rest)
        decreases |rest|
      {
        var x := SmallestFact(rest);
        AscendingStep(r, rest, x);
        r, rest := r + [x], rest - {x};
      }
    }

    method RerouteFact(chosen: Option<EncounterId>, fact: LedgerFact, target: TargetId) returns (route: Route)
      modifies this`encounters
      ensures (View(), route) == Reroute(old(View()), chosen, fact, target)
    {
      if chosen.None? { return Unrouted; }
      var id := chosen.value;
      if id !in encounters || !encounters[id].phase.Ending? { return Into(id); }
      var e := encounters[id];
      var closing := fact.source.id in e.phase.closure;
      var resumes := closing && match e.phase.reason
                                case Inactivity => true
                                case AllTargetsTerminal => target in e.targets && fact.eqTime > e.phase.cutoff;
      if resumes {
        encounters := encounters[id := Resume(e, target)];
        return Into(id);
      }
      if !closing || fact.eqTime > e.phase.cutoff {
        return if !closing && fact.eqTime <= e.phase.cutoff then Dropped else Unrouted;
      }
      route := Into(id);
    }

    method MintEncounter(fact: LedgerFact, v: Reading) returns (id: Option<EncounterId>)
      modifies this`encounters
      ensures (View(), id) == Mint(old(View()), fact, v)
    {
      if LateAfterClosure(View(), fact) || !v.startQualified { return None; }
      var minted := MintId(fact.source, fact.eqTime, v.target, v.participant);
      if minted !in encounters && |encounters| >= policy.maxEncounters { return None; }
      if minted !in encounters { encounters := encounters[minted := Fresh(View(), minted, fact)]; }
      id := Some(minted);
    }

    method SettleFact(id: EncounterId, index: nat, v: Reading)
      requires index < |ledger|
      modifies this`encounters, this`assignments, this`sourceActive
      ensures View() == Settle(old(View()), id, index, v)
    {
      hide Absorb, NewMember, PromoteUpTo;
      var fact := ledger[index];
      var contributes := Contributes(View(), id, v);
      if !contributes && !KnowsTarget(View(), id, v.target) { return; }
      JoinAsMember(id, fact.source);
      if id in encounters {
        encounters := encounters[id := Absorb(encounters[id], index, fact, v, contributes)];
      }
      assignments := assignments[index := id];
      sourceActive := sourceActive[fact.source.id := id];
      if v.startQualified { PromotePriorFacts(id, fact.source.id, v.target, fact.eqTime); }
    }

    method JoinAsMember(id: EncounterId, source: LogSource)
      modifies this`encounters
      ensures View() == AddMember(old(View()), id, source)
    {
      if id !in encounters || source.id in encounters[id].sources { return; }
      encounters := encounters[id := NewMember(sources, encounters[id], source)];
    }

    method PromotePriorFacts(id: EncounterId, source: SourceId, target: TargetId, anchor: EqSecond)
      modifies this`encounters, this`assignments
      ensures View() == Promote(old(View()), id, source, target, anchor)
    {
      hide Promotable;
      var before := View();
      for i := 0 to |ledger|
        invariant View() == PromoteUpTo(before, id, source, target, anchor, i)
      {
        if Promotable(before, i, source, target, anchor) {
          if id in encounters {
            var e := encounters[id];
            encounters := encounters[id := e.(facts := e.facts + [i], startEq := Min(e.startEq, ledger[i].eqTime),
                                              startReceipt := Min(e.startReceipt, ledger[i].receipt),
                                              endEq := Max(e.endEq, ledger[i].eqTime))];
          }
          assignments := assignments[i := id];
        }
      }
    }

    // ----- attempts and deaths -----

    method TakeAttempt(index: nat)
      requires index < |ledger| && ledger[index].event.Attempt?
      modifies this`encounters, this`assignments
      ensures View() == ProcessAttempt(old(View()), index)
    {
      var fact := ledger[index];
      if fact.source.id !in sourceActive { return; }
      var id := sourceActive[fact.source.id];
      var known := KnowsTarget(View(), id, Target(fact.source, fact.event.defender))
                   || KnowsTarget(View(), id, Target(fact.source, fact.event.attacker));
      if !known { return; }
      var e := encounters[id];
      if e.phase.Ending? && e.phase.reason.Inactivity? { e := e.(phase := Active); }
      encounters := encounters[id := e.(lastSustainEq := Max(e.lastSustainEq, fact.eqTime),
                                        lastSustainReceipt := Max(e.lastSustainReceipt, fact.receipt),
                                        facts := e.facts + [index])];
      assignments := assignments[index := id];
    }

    method TakeSlain(index: nat)
      requires index < |ledger| && ledger[index].event.Slain?
      modifies this`encounters, this`assignments
      ensures View() == ProcessSlain(old(View()), index)
    {
      var fact := ledger[index];
      var target := Target(fact.source, fact.event.target);
      var chosen := None;
      if fact.source.id in sourceActive && KnowsTarget(View(), sourceActive[fact.source.id], target) {
        chosen := Some(sourceActive[fact.source.id]);
      } else {
        var live := set id | id in encounters && !encounters[id].phase.Held?
                             && SameServer(encounters[id].server, fact.source.server) && target in encounters[id].targets;
        assert live == LiveWithTarget(View(), fact.source.server, target);
        chosen := FirstOf(live);
      }
      if chosen.None? { return; }
      var id := chosen.value;
      JoinAsMember(id, fact.source);
      encounters := encounters[id := Kill(encounters[id], index, fact, target)];
      assignments := assignments[index := id];
    }

    // ----- time -----

    method CloseEofs(at: U64)
      modifies this`sources
      ensures sources == ClosedSources(old(View()), at)
    {
      var rest := sources.Keys;
      while rest != {}
        invariant sources.Keys == old(sources).Keys && rest <= sources.Keys
        invariant forall x | x in sources ::
          sources[x] == if x in rest then old(sources)[x] else CloseAtEof(old(sources)[x], at, policy)
        decreases |rest|
      {
        var x :| x in rest;
        var st := sources[x];
        if st.eofPasses >= 2 && st.eofFirstAt.Some? && SatSub(at, st.eofFirstAt.value) >= policy.stableEofMs && st.observed.Some? {
          sources := sources[x := st.(closedThrough := MaxOpt(st.closedThrough, st.observed))];
        }
        rest := rest - {x};
      }
    }

    method EndInactive(at: U64)
      modifies this`encounters
      ensures encounters == map id | id in old(encounters) :: Quieted(old(encounters)[id], at, policy)
    {
      var rest := encounters.Keys;
      while rest != {}
        invariant encounters.Keys == old(encounters).Keys && rest <= encounters.Keys
        invariant forall id | id in encounters ::
          encounters[id] == if id in rest then old(encounters)[id] else Quieted(old(encounters)[id], at, policy)
        decreases |rest|
      {
        var id :| id in rest;
        var e := encounters[id];
        if e.phase.Active? && SatSub(at, e.lastSustainReceipt) >= policy.inactivityMs {
          encounters := encounters[id := e.(phase := Ending(Inactivity, at, e.lastSustainEq, e.sources))];
        }
        rest := rest - {id};
      }
    }

    /** `finalize`: the encounter is held, its snapshot frozen, its sources released. */
    method FinalizeOne(id: EncounterId, at: U64)
      requires id in encounters && encounters[id].phase.Ending?
      modifies this`encounters, this`sourceActive
      ensures encounters == old(encounters)[id := Finalize(EvidenceOf(old(View())), old(encounters)[id], at, SnapshotOf)]
      ensures sourceActive == ReleasedFrom(old(sourceActive), {id})
    {
      hide SnapshotOf;
      var e := encounters[id];
      var late := if AllClosed(sources, e.phase) then {}
                  else set x | x in e.phase.closure && !ClosedTo(sources, x, e.phase.cutoff);
      e := e.(partial := e.partial + late, phase := Held(e.phase.reason, SatAdd(at, policy.heldMs)));
      var snapshot := ComputeSnapshot(EvidenceOf(View()), e);
      if snapshot.Some? { e := e.(frozen := snapshot); }
      FinalizePublishes(EvidenceOf(View()), encounters[id], at);
      encounters := encounters[id := e];
      sourceActive := ReleasedFrom(sourceActive, {id});
    }

    method FinalizeDue(at: U64)
      modifies this`encounters, this`sourceActive
      ensures var due := DueSet(sources, old(encounters), at, policy);
              encounters == FinalizedBook(EvidenceOf(old(View())), old(encounters), due, at)
              && sourceActive == ReleasedFrom(old(sourceActive), due)
    {
      hide Finalize, DueSet, SnapshotOf, FinalizedBook, ReleasedFrom;
      ghost var ev := EvidenceOf(View());
      NothingFinished(ev, encounters, sourceActive, at);
      var due := DueSet(sources, encounters, at, policy);
      var rest := due;
      assert due - rest == {};
      while rest != {}
        invariant rest <= due && encounters == FinalizedBook(ev, old(encounters), due - rest, at)
        invariant sourceActive == ReleasedFrom(old(sourceActive), due - rest)
        decreases |rest|
      {
        var id :| id in rest;
        ghost var done := due - rest;
        FinishedStep(ev, old(encounters), done, id, at);
        FinalizeOne(id, at);
        rest := rest - {id};
        assert due - rest == done + {id};
        ReleasedTwice(old(sourceActive), done, {id});
      }
      assert due - rest == due;
    }

    method DropExpired(at: U64)
      modifies this`encounters, this`ledger, this`assignments
      ensures encounters == Kept(old(encounters), at)
      ensures var drained := Kept(old(encounters), at) == map[] && old(encounters) != map[];
              ledger == (if drained then [] else old(ledger))
              && assignments == if drained && old(ledger) != [] then map[] else old(assignments)
    {
      hide Kept, ExpiredSet;
      var expired := ExpiredSet(encounters, at);
      var rest := expired;
      while rest != {}
        invariant rest <= expired && encounters == old(encounters) - (expired - rest)
        invariant ledger == old(ledger) && assignments == old(assignments)
        decreases |rest|
      {
        var id :| id in rest;
        encounters, rest := encounters - {id}, rest - {id};
      }
      assert expired - rest == expired;
      ExpiredLeave(old(encounters), at);
      if expired != {} && encounters == map[] && ledger != [] {
        ledger, assignments := [], map[];
      }
    }

    method Advance(at: U64)
      modifies this`sources, this`encounters, this`sourceActive, this`ledger, this`assignments
      ensures View() == AdvanceTime(old(View()), at, SnapshotOf)
    {
      hide ClosedSources, Finalize, EndingDue, Quieted, Expired, SnapshotOf, AdvanceEncounter, ReleasedFrom, DueSet, FinalizedBook, Advanced;
      AdvanceInTwo(View(), at);
      CloseEofs(at);
      EndInactive(at);
      FinalizeDue(at);
      DropExpired(at);
    }

    /** `next_deadline`: the least of all encounter and end-of-file deadlines. */
    method NextDeadline() returns (d: Option<U64>)
      ensures IsNextDeadline(View(), d)
    {
      hide Deadlines;
      d := Earliest(Deadlines(View()));
    }

    static method Earliest(all: set<U64>) returns (d: Option<U64>)
      ensures match d case None => all == {} case Some(t) => t in all && forall x | x in all :: t <= x
    {
      if all == {} { return None; }
      var least: U64 :| least in all;
      var rest := all - {least};
      while rest != {}
        invariant rest <= all && least in all - rest && forall t | t in all - rest :: least <= t
        decreases |rest|
      {
        var t :| t in rest;
        assert forall x | x in all - (rest - {t}) :: x == t || x in all - rest;
        if t < least { least := t; }
        rest := rest - {t};
      }
      assert all - rest == all;
      d := Some(least);
    }

    method ApplyInputs(at: U64, input: Input)
      requires 0 < policy.maxRecordIds
      modifies this
      ensures View() == ApplyInput(old(View()), at, input)
    {
      match input
      case Registered(source, generation) => Register(source, generation, at);
      case Removed(source) => Remove(source);
      case Gap(source, generation, reason) => Gapped(source, generation, reason);
      case StableEof(source, generation) => StableEofSeen(source, generation, at);
      case NewRecord(record) => TakeRecord(record, at);
    }

    /** `apply`: one input, then time, then the next wake-up. */
    method Apply(at: U64, input: Input) returns (deadline: Option<U64>)
      requires 0 < policy.maxRecordIds
      modifies this
      ensures View() == StepOnce(old(View()), Step.Apply(at, input), SnapshotOf)
      ensures IsNextDeadline(View(), deadline)
    {
      hide AdvanceTime, ApplyInput, SnapshotOf, IsNextDeadline;
      now := Max(now, at);
      ApplyInputs(at, input);
      Advance(now);
      deadline := NextDeadline();
    }

    /** `tick`. */
    method Tick(at: U64) returns (deadline: Option<U64>)
      requires 0 < policy.maxRecordIds
      modifies this
      ensures View() == StepOnce(old(View()), Step.Tick(at), SnapshotOf)
      ensures IsNextDeadline(View(), deadline)
    {
      hide AdvanceTime, SnapshotOf, IsNextDeadline;
      now := Max(now, at);
      Advance(now);
      deadline := NextDeadline();
    }
  }

  function Quieted(e: Encounter, at: U64, policy: Policy): Encounter {
    if InactivityDue(e, at, policy) then EnterEnding(e, Inactivity, at, e.lastSustainEq) else e
  }

  function DueSet(sources: map<SourceId, SourceState>, es: map<EncounterId, Encounter>, at: U64, policy: Policy): (due: set<EncounterId>)
    ensures forall id | id in due :: id in es && es[id].phase.Ending?
  { set id | id in es && EndingDue(sources, es[id], at, policy) }

  ghost function FinalizedBook(ev: Evidence, es: map<EncounterId, Encounter>, due: set<EncounterId>, at: U64): map<EncounterId, Encounter>
    requires forall id | id in due :: id in es && es[id].phase.Ending?
  { map id | id in es :: if id in due then Finalize(ev, es[id], at, SnapshotOf) else es[id] }

  function ExpiredSet(es: map<EncounterId, Encounter>, at: U64): set<EncounterId> {
    set id | id in es && Expired(es[id], at)
  }

  function Kept(es: map<EncounterId, Encounter>, at: U64): map<EncounterId, Encounter> {
    map id | id in es && !Expired(es[id], at) :: es[id]
  }

  lemma ExpiredLeave(es: map<EncounterId, Encounter>, at: U64)
    ensures es - ExpiredSet(es, at) == Kept(es, at)
    ensures Kept(es, at) == map[] ==> (ExpiredSet(es, at) != {} <==> es != map[])
  {
    hide Expired;
    var expired, kept := ExpiredSet(es, at), Kept(es, at);
    assert es - expired == kept;
    if kept == map[] && es != map[] {
      var id :| id in es;
      assert id !in kept && id in expired;
    }
  }

  lemma NothingFinished(ev: Evidence, es: map<EncounterId, Encounter>, active: map<SourceId, EncounterId>, at: U64)
    ensures FinalizedBook(ev, es, {}, at) == es && ReleasedFrom(active, {}) == active
  {}

  lemma FinishedStep(ev: Evidence, es: map<EncounterId, Encounter>, done: set<EncounterId>, id: EncounterId, at: U64)
    requires (forall x | x in done :: x in es && es[x].phase.Ending?) && id in es && es[id].phase.Ending? && id !in done
    ensures var before := FinalizedBook(ev, es, done, at);
            id in before && before[id] == es[id]
            && before[id := Finalize(ev, es[id], at, SnapshotOf)] == FinalizedBook(ev, es, done + {id}, at)
  { hide Finalize; }

  /** `source_active.retain`: the sources of the given encounters are free again. */
  function ReleasedFrom(active: map<SourceId, EncounterId>, ids: set<EncounterId>): map<SourceId, EncounterId> {
    map x | x in active && active[x] !in ids :: active[x]
  }

  lemma ReleasedTwice(active: map<SourceId, EncounterId>, a: set<EncounterId>, b: set<EncounterId>)
    ensures ReleasedFrom(ReleasedFrom(active, a), b) == ReleasedFrom(active, a + b)
  {}

  lemma FinalizePublishes(ev: Evidence, e: Encounter, at: U64)
    requires e.phase.Ending?
    ensures var late := if AllClosed(ev.sources, e.phase) then {}
                        else set x | x in e.phase.closure && !ClosedTo(ev.sources, x, e.phase.cutoff);
            var held := e.(partial := e.partial + late, phase := Held(e.phase.reason, SatAdd(at, ev.policy.heldMs)));
            Finalize(ev, e, at, SnapshotOf) ==
              if SnapshotOf(ev, held).Some? then held.(frozen := SnapshotOf(ev, held)) else held
  {}

  lemma DueIsNewlyHeld(ev: Evidence, e: Encounter, at: U64)
    ensures EndingDue(ev.sources, Quieted(e, at, ev.policy), at, ev.policy)
            <==> NewlyHeld(e, AdvanceEncounter(ev, e, at, SnapshotOf))
  {}

  /** `advance_time` ends the silent encounters first and finalizes the due ones
      second; on each encounter that is the one step of the specification. */
  lemma AdvanceInTwo(s: Engine, at: U64)
    ensures var ev := EvidenceOf(s).(sources := ClosedSources(s, at));
            var quiet := map id | id in s.encounters :: Quieted(s.encounters[id], at, s.policy);
            var due := DueSet(ev.sources, quiet, at, s.policy);
            Advanced(s, at, SnapshotOf) == FinalizedBook(ev, quiet, due, at)
            && AdvanceTime(s, at, SnapshotOf).sourceActive == ReleasedFrom(s.sourceActive, due)
  {
    hide ClosedSources, Finalize, EndingDue, Quieted, SnapshotOf, NewlyHeld;
    var ev := EvidenceOf(s).(sources := ClosedSources(s, at));
    var quiet := map id | id in s.encounters :: Quieted(s.encounters[id], at, s.policy);
    var due := DueSet(ev.sources, quiet, at, s.policy);
    forall id | id in s.encounters
      ensures AdvanceEncounter(ev, s.encounters[id], at, SnapshotOf) == FinalizedBook(ev, quiet, due, at)[id]
      ensures id in due <==> NewlyHeld(s.encounters[id], AdvanceEncounter(ev, s.encounters[id], at, SnapshotOf)) {
      DueIsNewlyHeld(ev, s.encounters[id], at);
      AdvanceIsQuietThenFinish(ev, s.encounters[id], at);
    }
    assert Advanced(s, at, SnapshotOf) == FinalizedBook(ev, quiet, due, at);
  }

  /** The target maps joined but for the targets in `rest`. */
  function JoinedSoFar(mine: map<TargetId, TargetState>, theirs: map<TargetId, TargetState>, rest: set<TargetId>)
    : map<TargetId, TargetState>
  { JoinTargets(mine, theirs - rest) }

  lemma NothingJoined(mine: map<TargetId, TargetState>, theirs: map<TargetId, TargetState>)
    ensures JoinedSoFar(mine, theirs, theirs.Keys) == mine
  { hide JoinTarget; }

  lemma AllJoined(mine: map<TargetId, TargetState>, theirs: map<TargetId, TargetState>)
    ensures JoinedSoFar(mine, theirs, {}) == JoinTargets(mine, theirs)
  { hide JoinTargets; assert theirs - {} == theirs; }

  lemma JoinStep(mine: map<TargetId, TargetState>, theirs: map<TargetId, TargetState>, rest: set<TargetId>, t: TargetId)
    requires t in rest && rest <= theirs.Keys
    ensures var now := JoinedSoFar(mine, theirs, rest);
            JoinedSoFar(mine, theirs, rest - {t})
            == now[t := if t in now then JoinTarget(now[t], theirs[t]) else theirs[t]]
  {
    hide JoinTarget;
    var now, next := JoinedSoFar(mine, theirs, rest), JoinedSoFar(mine, theirs, rest - {t});
    assert t in now ==> now[t] == mine[t];
    assert next.Keys == now.Keys + {t};
  }

  lemma AdvanceIsQuietThenFinish(ev: Evidence, e: Encounter, at: U64)
    ensures var quiet := Quieted(e, at, ev.policy);
            AdvanceEncounter(ev, e, at, SnapshotOf) ==
              if EndingDue(ev.sources, quiet, at, ev.policy) then Finalize(ev, quiet, at, SnapshotOf) else quiet
  {}
}
