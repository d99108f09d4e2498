/** Where a qualified hit ends up: exactly when it is listed by an encounter of the book. */
module CombatHits {
  import opened Foundations
  import opened CombatModel
  import opened CombatSteps
  import opened CombatPartition
  import CombatHeld

  /** Some encounter of the book lists the fact. */
  ghost predicate Listed(s: Engine, f: nat) { exists id :: ListedBy(s, id, f) }

  ghost predicate ListedBy(s: Engine, id: EncounterId, f: nat) { id in s.encounters && f in s.encounters[id].facts }

  /** `source_active` still names an encounter that has left the book, and nothing correlates. */
  ghost predicate FollowsGone(s: Engine, fact: LedgerFact)
    requires fact.event.Damage?
  {
    fact.source.id in s.sourceActive && s.sourceActive[fact.source.id] !in s.encounters
    && Correlated(s, fact.source.server, Read(s, fact).fingerprint) == {}
  }

  /** The encounter the fact is aimed at without a merge: the source's own if nothing
      correlates, and the correlated one if the source has no other in the book. */
  ghost function Aimed(s: Engine, fact: LedgerFact): Option<EncounterId>
    requires fact.event.Damage?
  {
    var current := if fact.source.id in s.sourceActive then Some(s.sourceActive[fact.source.id]) else None;
    var similar := Correlated(s, fact.source.server, Read(s, fact).fingerprint);
    if similar == {} then current
    else if current.None? || current.value == Least(similar) || current.value !in s.encounters then Some(Least(similar))
    else None
  }

  predicate EndingIn(s: Engine, id: Option<EncounterId>) {
    id.Some? && id.value in s.encounters && s.encounters[id.value].phase.Ending?
  }

  /** Aimed at an ending encounter whose closure the source is not part of, and not later
      than its cutoff. */
  ghost predicate ExcludedFromClosure(s: Engine, fact: LedgerFact)
    requires fact.event.Damage?
  {
    var id := Aimed(s, fact);
    EndingIn(s, id)
    && fact.source.id !in s.encounters[id.value].phase.closure && fact.eqTime <= s.encounters[id.value].phase.cutoff
  }

  /** Aimed at nothing, or later than the cutoff of an ending encounter that it does not resume. */
  ghost predicate StartsAnew(s: Engine, fact: LedgerFact)
    requires fact.event.Damage?
  {
    var v, id := Read(s, fact), Aimed(s, fact);
    (fact.source.id !in s.sourceActive && Correlated(s, fact.source.server, v.fingerprint) == {})
    || (EndingIn(s, id)
        && var e := s.encounters[id.value];
           fact.eqTime > e.phase.cutoff
           && (fact.source.id in e.phase.closure ==> e.phase.reason.AllTargetsTerminal? && v.target !in e.targets))
  }

  /** It starts anew, but comes late for a held encounter or finds the book full. */
  ghost predicate NoPlace(s: Engine, fact: LedgerFact)
    requires fact.event.Damage?
  {
    var v := Read(s, fact);
    StartsAnew(s, fact)
    && (LateAfterClosure(s, fact)
        || (MintId(fact.source, fact.eqTime, v.target, v.participant) !in s.encounters
            && |s.encounters| >= s.policy.maxEncounters))
  }

  /** A merge is in no ending, and without one the choice is the aim. */
  lemma ChooseAims(s: Engine, fact: LedgerFact)
    requires fact.event.Damage?
    ensures var (r, chosen) := Choose(s, fact.source, Read(s, fact).fingerprint);
            if Aimed(s, fact).Some? || chosen.None? then r == s && chosen == Aimed(s, fact) else !EndingIn(r, chosen)
    ensures Aimed(s, fact).None? && Choose(s, fact.source, Read(s, fact).fingerprint).1.None?
            <==> fact.source.id !in s.sourceActive && Correlated(s, fact.source.server, Read(s, fact).fingerprint) == {}
  {
    hide Read, Correlated, Join, Redirect, Merge;
    var fp := Read(s, fact).fingerprint;
    var similar := Correlated(s, fact.source.server, fp);
    if similar != {} && fact.source.id in s.sourceActive && s.sourceActive[fact.source.id] != Least(similar) {
      CorrelatedInBook(s, fact.source.server, fp, Least(similar));
      MergeAims(s, s.sourceActive[fact.source.id], Least(similar));
    }
  }

  lemma MergeAims(s: Engine, left: EncounterId, right: EncounterId)
    requires left != right && right in s.encounters
    ensures var (r, id) := Merge(s, left, right);
            if left in s.encounters then id.Some? && !EndingIn(r, id) else r == s && id == Some(right)
  {
    hide Join, Redirect;
    if left in s.encounters {
      CombatHeld.JoinIsActive(s.encounters[left], s.encounters[right]);
      CombatHeld.JoinIsActive(s.encounters[right], s.encounters[left]);
    }
  }

  /** The guards say where routing goes. */
  lemma RouteGuards(s: Engine, fact: LedgerFact)
    requires fact.event.Damage?
    ensures var (r, route) := Routed(s, fact);
            (route.Dropped? <==> ExcludedFromClosure(s, fact)) && (route.Unrouted? <==> StartsAnew(s, fact))
            && (route.Unrouted? || route.Dropped? ==> r == s)
  {
    hide Read, Choose, Aimed, Resume, Correlated;
    ChooseAims(s, fact);
  }

  lemma {:induction false} PromoteKeepsListed(s: Engine, id: EncounterId, source: SourceId, target: TargetId, anchor: EqSecond, n: nat, x: EncounterId, f: nat)
    requires n <= |s.ledger| && f in s.assignments
    ensures var r := PromoteUpTo(s, id, source, target, anchor, n);
            (ListedBy(s, x, f) ==> ListedBy(r, x, f)) && r.encounters.Keys == s.encounters.Keys
            && f in r.assignments && r.assignments[f] == s.assignments[f]
  {
    if n > 0 { PromoteKeepsListed(s, id, source, target, anchor, n - 1, x, f); }
  }

  /** A qualified hit joins the encounter it is settled into, or, if that is gone, only its
      assignment is kept. */
  lemma SettleLists(s: Engine, id: EncounterId, index: nat, v: Reading)
    requires index < |s.ledger| && v.startQualified && v.positive && v.hostile
    ensures var r := Settle(s, id, index, v);
            (id in s.encounters ==> ListedBy(r, id, index)) && r.encounters.Keys == s.encounters.Keys
            && index in r.assignments && r.assignments[index] == id
  {
    hide PromoteUpTo;
    var fact := s.ledger[index];
    var joined := AddMember(s, id, fact.source);
    var stored := Store(joined, id, index, v, true);
    assert id in s.encounters ==> stored.encounters[id].facts[|joined.encounters[id].facts|] == index;
    var active := stored.(sourceActive := stored.sourceActive[fact.source.id := id]);
    PromoteKeepsListed(active, id, fact.source.id, v.target, fact.eqTime, |active.ledger|, id, index);
  }

  lemma QualifiedIsHostile(s: Engine, fact: LedgerFact)
    requires fact.event.Damage?
    ensures Read(s, fact).startQualified ==> Read(s, fact).positive && Read(s, fact).hostile
  {}

  /** A merge ends up in an encounter of the book. */
  lemma MergeInBook(s: Engine, left: EncounterId, right: EncounterId)
    requires left != right && right in s.encounters
    ensures var (r, id) := Merge(s, left, right); id.Some? && id.value in r.encounters
  { hide Join, Redirect; }

  /** Routing names an encounter of the book unless it follows one that is gone. */
  lemma RoutedInBook(s: Engine, fact: LedgerFact)
    requires fact.event.Damage?
    ensures var (r, route) := Routed(s, fact);
            (FollowsGone(s, fact) ==> r == s && route == Into(s.sourceActive[fact.source.id]) && route.id !in r.encounters)
            && (route.Into? && !FollowsGone(s, fact) ==> route.id in r.encounters)
  {
    hide Merge, Read, Correlated, Resume;
    var fp := Read(s, fact).fingerprint;
    var similar := Correlated(s, fact.source.server, fp);
    if similar != {} {
      CorrelatedInBook(s, fact.source.server, fp, Least(similar));
      if fact.source.id in s.sourceActive && s.sourceActive[fact.source.id] != Least(similar) {
        MergeInBook(s, s.sourceActive[fact.source.id], Least(similar));
      }
    }
  }

  lemma CorrelatedInBook(s: Engine, server: string, fp: Fingerprint, id: EncounterId)
    requires id in Correlated(s, server, fp)
    ensures id in s.encounters
  {}

  lemma MintPlaces(s: Engine, fact: LedgerFact, v: Reading)
    requires v.startQualified
    ensures var (r, id) := Mint(s, fact, v);
            (id.None? <==> LateAfterClosure(s, fact)
                           || (MintId(fact.source, fact.eqTime, v.target, v.participant) !in s.encounters
                               && |s.encounters| >= s.policy.maxEncounters))
            && (id.Some? ==> id.value in r.encounters)
  { hide LateAfterClosure, MintId; }

  lemma UnassignedIsUnlisted(s: Engine, f: nat)
    requires Partition(s) && (f in s.assignments ==> s.assignments[f] !in s.encounters)
    ensures !Listed(s, f)
  {
    forall id | id in s.encounters ensures f !in s.encounters[id].facts { assert Sound(s.encounters[id], id, s.assignments); }
  }

  /** A qualified hit is listed by an encounter of the book exactly unless it follows an
      encounter that is gone, is excluded from a closure, or finds no place. In the first
      case it is assigned to the gone encounter, so no later promotion recovers it. */
  lemma HitIsListedIff(s: Engine, index: nat)
    requires Partition(s) && index < |s.ledger| && index !in s.assignments
    requires s.ledger[index].event.Damage? && Read(s, s.ledger[index]).startQualified
    ensures var fact := s.ledger[index]; var r := ProcessDamage(s, index);
            (Listed(r, index) <==> !FollowsGone(s, fact) && !ExcludedFromClosure(s, fact) && !NoPlace(s, fact))
            && (FollowsGone(s, fact) ==> index in r.assignments && r.assignments[index] !in r.encounters)
            && (Listed(r, index) || FollowsGone(s, fact) || index !in r.assignments)
  {
    hide Partition, Exact, Routed, Mint, Settle, Read, FollowsGone, LateAfterClosure, MintId, MintsStale, ExcludedFromClosure, StartsAnew;
    RouteGuards(s, s.ledger[index]);
    var fact := s.ledger[index];
    var v := Read(s, fact);
    var (routed, route) := Routed(s, fact);
    RoutedInBook(s, fact);
    RoutedKeeps(s, fact);
    QualifiedIsHostile(s, fact);
    MintPlaces(routed, fact, v);
    MintKeeps(routed, fact, v);
    DamageKeeps(s, index);
    var (placed, chosen) := Place(s, fact);
    var r := ProcessDamage(s, index);
    if chosen.Some? {
      SettleLists(placed, chosen.value, index, v);
      if chosen.value in placed.encounters { assert ListedBy(r, chosen.value, index); } else { UnassignedIsUnlisted(r, index); }
    } else {
      UnassignedIsUnlisted(r, index);
    }
  }

  /** While `source_active` is live, and so in every run that never reuses a held id, a
      qualified hit is only left out by the closing rules or a full book. */
  lemma LiveHitIsListed(s: Engine, index: nat)
    requires CombatHeld.Live(s) && Partition(s) && index < |s.ledger| && index !in s.assignments
    requires s.ledger[index].event.Damage? && Read(s, s.ledger[index]).startQualified
    ensures Listed(ProcessDamage(s, index), index) <==> !ExcludedFromClosure(s, s.ledger[index]) && !NoPlace(s, s.ledger[index])
  {
    hide Read, ProcessDamage, Partition, ExcludedFromClosure, NoPlace;
    HitIsListedIff(s, index);
    CombatHeld.LiveHasNoHeldCurrent(s, s.ledger[index].source);
  }
}
