/** Held encounters: what keeps them immutable, and exactly when the code does not. */
module CombatHeld {
  import opened Foundations
  import opened CombatModel
  import opened CombatSteps

  predicate LiveIn(encounters: map<EncounterId, Encounter>, id: EncounterId) {
    id in encounters && !encounters[id].phase.Held?
  }

  /** `source_active` names live encounters that are not held. */
  ghost predicate Live(s: Engine) {
    forall x | x in s.sourceActive :: LiveIn(s.encounters, s.sourceActive[x])
  }

  /** Held encounters, with their frozen snapshots, are where and what they were. */
  ghost predicate HeldFixed(s: Engine, s': Engine) {
    forall id | id in s.encounters && s.encounters[id].phase.Held? ::
      id in s'.encounters && s'.encounters[id] == s.encounters[id]
  }

  lemma HeldFixedTwice(a: Engine, b: Engine, c: Engine)
    requires HeldFixed(a, b) && HeldFixed(b, c)
    ensures HeldFixed(a, c)
  {
    forall id | id in a.encounters && a.encounters[id].phase.Held?
      ensures id in c.encounters && c.encounters[id] == a.encounters[id]
    { assert id in b.encounters && b.encounters[id] == a.encounters[id]; }
  }

  /** Routing never makes an encounter held. */
  ghost predicate HeldBefore(s: Engine, r: Engine) {
    forall id | id in r.encounters && r.encounters[id].phase.Held? ::
      id in s.encounters && s.encounters[id] == r.encounters[id]
  }

  lemma HeldBeforeTwice(a: Engine, b: Engine, c: Engine)
    requires HeldBefore(a, b) && HeldBefore(b, c)
    ensures HeldBefore(a, c)
  {}

  /** Only this encounter changes, and not into or out of being held. */
  ghost predicate Touches(s: Engine, s': Engine, id: EncounterId) {
    s'.encounters.Keys == s.encounters.Keys && s'.sourceActive == s.sourceActive
    && (forall x | x in s.encounters && x != id :: s'.encounters[x] == s.encounters[x])
    && (id in s.encounters ==> SameIfHeld(s.encounters[id], s'.encounters[id])
                               && |s.encounters[id].facts| <= |s'.encounters[id].facts|)
  }

  /** A held encounter stays held until the same time with the same snapshot; no other becomes held. */
  predicate SameIfHeld(e: Encounter, e': Encounter) {
    (e'.phase.Held? <==> e.phase.Held?) && (e.phase.Held? ==> e'.phase == e.phase && e'.frozen == e.frozen)
  }

  /** Every held encounter keeps its phase and its frozen snapshot. */
  ghost predicate SnapshotsKept(s: Engine, s': Engine) {
    forall id | id in s.encounters && s.encounters[id].phase.Held? ::
      id in s'.encounters && SameIfHeld(s.encounters[id], s'.encounters[id])
  }

  lemma SnapshotsKeptTwice(a: Engine, b: Engine, c: Engine)
    requires SnapshotsKept(a, b) && SnapshotsKept(b, c)
    ensures SnapshotsKept(a, c)
  {
    forall id | id in a.encounters && a.encounters[id].phase.Held?
      ensures id in c.encounters && SameIfHeld(a.encounters[id], c.encounters[id])
    { assert id in b.encounters && SameIfHeld(a.encounters[id], b.encounters[id]); }
  }

  lemma FixedKeepsSnapshots(s: Engine, s': Engine)
    requires HeldFixed(s, s')
    ensures SnapshotsKept(s, s')
  {}

  lemma TouchesLive(s: Engine, s': Engine, id: EncounterId)
    requires Touches(s, s', id)
    ensures LiveIn(s.encounters, id) || id !in s.encounters ==> HeldFixed(s, s') && HeldBefore(s, s')
    ensures Live(s) ==> Live(s')
    ensures LiveIn(s.encounters, id) ==> LiveIn(s'.encounters, id)
    ensures SnapshotsKept(s, s')
  {
    if Live(s) {
      forall x | x in s'.sourceActive ensures LiveIn(s'.encounters, s'.sourceActive[x]) {
        assert LiveIn(s.encounters, s.sourceActive[x]);
      }
    }
  }

  lemma TouchesTwice(a: Engine, b: Engine, c: Engine, id: EncounterId)
    requires Touches(a, b, id) && Touches(b, c, id)
    ensures Touches(a, c, id)
  {}

  lemma {:induction false} PromoteTouches(s: Engine, id: EncounterId, source: SourceId, target: TargetId, anchor: EqSecond, n: nat)
    requires n <= |s.ledger|
    ensures Touches(s, PromoteUpTo(s, id, source, target, anchor, n), id)
  {
    hide Promotable;
    if n > 0 {
      PromoteTouches(s, id, source, target, anchor, n - 1);
      var before := PromoteUpTo(s, id, source, target, anchor, n - 1);
      assert Touches(before, PromoteOne(before, id, n - 1), id);
      TouchesTwice(s, before, PromoteOne(before, id, n - 1), id);
    }
  }

  lemma StoreTouches(s: Engine, id: EncounterId, index: nat, v: Reading, contributes: bool)
    requires index < |s.ledger|
    ensures Touches(s, Store(s, id, index, v, contributes), id)
    ensures id in s.encounters ==> |s.encounters[id].facts| < |Store(s, id, index, v, contributes).encounters[id].facts|
  {}

  lemma AddMemberTouches(s: Engine, id: EncounterId, source: LogSource)
    ensures Touches(s, AddMember(s, id, source), id)
  {}

  /** The fact joins the encounter rather than being passed over. */
  predicate Joins(s: Engine, id: EncounterId, v: Reading) { Contributes(s, id, v) || KnowsTarget(s, id, v.target) }

  /** Settling leaves held encounters other than its own alone, keeps every snapshot, and
      changes its own encounter exactly when the fact joins it. */
  lemma SettleTouches(s: Engine, id: EncounterId, index: nat, v: Reading)
    requires index < |s.ledger|
    ensures var r := Settle(s, id, index, v);
            SnapshotsKept(s, r)
            && (LiveIn(s.encounters, id) || id !in s.encounters || !Joins(s, id, v) ==> HeldFixed(s, r))
            && (id in s.encounters && Joins(s, id, v) ==> id in r.encounters && r.encounters[id] != s.encounters[id])
            && (id in s.encounters && s.encounters[id].phase.Held? && Joins(s, id, v) ==> !Live(r))
            && (LiveIn(s.encounters, id) && Live(s) ==> Live(r))
  {
    hide Store, AddMember, PromoteUpTo, KnowsTarget, Touches, HeldFixed, Live, SnapshotsKept, Contributes;
    var fact := s.ledger[index];
    if !Joins(s, id, v) {
      HeldFixedRefl(s);
      FixedKeepsSnapshots(s, s);
    } else {
      var joined := AddMember(s, id, fact.source);
      AddMemberTouches(s, id, fact.source);
      var stored := Store(joined, id, index, v, Contributes(s, id, v));
      StoreTouches(joined, id, index, v, Contributes(s, id, v));
      TouchesTwice(s, joined, stored, id);
      TouchesLive(s, stored, id);
      TouchesKeys(s, joined, id);
      TouchesKeys(s, stored, id);
      var active := stored.(sourceActive := stored.sourceActive[fact.source.id := id]);
      ActivateLive(stored, fact.source.id, id);
      var r := Settle(s, id, index, v);
      PromoteTouches(active, id, fact.source.id, v.target, fact.eqTime, |active.ledger|);
      TouchesRefl(active, id);
      assert Touches(active, r, id);
      TouchesLive(active, r, id);
      TouchesKeys(active, r, id);
      FixedKeepsSnapshots(stored, active);
      SnapshotsKeptTwice(s, stored, active);
      SnapshotsKeptTwice(s, active, r);
      if LiveIn(s.encounters, id) || id !in s.encounters { HeldFixedTwice(s, stored, active); HeldFixedTwice(s, active, r); }
      if id in s.encounters && s.encounters[id].phase.Held? { HeldStaysNamed(s, stored, active, r, fact.source.id, id); }
    }
  }

  lemma HeldStaysNamed(s: Engine, stored: Engine, active: Engine, r: Engine, x: SourceId, id: EncounterId)
    requires Touches(s, stored, id) && id in s.encounters && s.encounters[id].phase.Held?
    requires active == stored.(sourceActive := stored.sourceActive[x := id]) && Touches(active, r, id)
    ensures !Live(r)
  {
    assert x in r.sourceActive && r.sourceActive[x] == id;
    assert !LiveIn(r.encounters, r.sourceActive[x]);
  }

  lemma HeldFixedRefl(s: Engine)
    ensures HeldFixed(s, s)
  {}

  lemma TouchesRefl(s: Engine, id: EncounterId)
    ensures Touches(s, s, id)
  {}

  lemma TouchesKeys(s: Engine, s': Engine, id: EncounterId)
    requires Touches(s, s', id)
    ensures s'.encounters.Keys == s.encounters.Keys
    ensures id in s.encounters ==> id in s'.encounters && |s.encounters[id].facts| <= |s'.encounters[id].facts|
  {}

  lemma ActivateLive(s: Engine, x: SourceId, id: EncounterId)
    ensures var a := s.(sourceActive := s.sourceActive[x := id]);
            HeldFixed(s, a) && (Live(s) && LiveIn(s.encounters, id) ==> Live(a))
  {}

  // ----- routing -----

  lemma MergeLive(s: Engine, left: EncounterId, right: EncounterId)
    requires left != right && LiveIn(s.encounters, left) && LiveIn(s.encounters, right)
    ensures var (r, id) := Merge(s, left, right);
            HeldFixed(s, r) && HeldBefore(s, r) && (Live(s) ==> Live(r)) && id.Some? && LiveIn(r.encounters, id.value)
  {
    hide Join, Ascending;
    var (r, id) := Merge(s, left, right);
    var a, b := s.encounters[left], s.encounters[right];
    assert r.encounters[id.value].phase == Active by { JoinIsActive(a, b); JoinIsActive(b, a); }
    if Live(s) {
      forall x | x in r.sourceActive ensures LiveIn(r.encounters, r.sourceActive[x]) {
        assert LiveIn(s.encounters, s.sourceActive[x]);
      }
    }
  }

  lemma JoinIsActive(a: Encounter, b: Encounter)
    ensures Join(a, b).phase == Active
  {}

  /** The source's own encounter is in the book and held. */
  predicate CurrentHeld(s: Engine, source: LogSource) {
    source.id in s.sourceActive && s.sourceActive[source.id] in s.encounters
    && s.encounters[s.sourceActive[source.id]].phase.Held?
  }

  /** Live, or not in the book at all. */
  predicate LiveOrGone(encounters: map<EncounterId, Encounter>, id: EncounterId) {
    LiveIn(encounters, id) || id !in encounters
  }

  lemma LiveHasNoHeldCurrent(s: Engine, source: LogSource)
    requires Live(s)
    ensures !CurrentHeld(s, source)
    ensures source.id in s.sourceActive ==> LiveIn(s.encounters, s.sourceActive[source.id])
  {}

  /** Routing touches no held encounter unless the source's own is held. */
  lemma ChooseSafe(s: Engine, source: LogSource, fp: Fingerprint)
    requires !CurrentHeld(s, source)
    ensures var (r, id) := Choose(s, source, fp);
            HeldFixed(s, r) && HeldBefore(s, r) && (Live(s) ==> Live(r))
            && (id.Some? ==> LiveOrGone(r.encounters, id.value)) && (Live(s) && id.Some? ==> LiveIn(r.encounters, id.value))
  {
    hide Live, HeldFixed, HeldBefore, Merge, Correlated;
    NothingTouched(s);
    var similar := Correlated(s, source.server, fp);
    if similar != {} { CorrelatedIsLive(s, source.server, fp, Least(similar)); }
    if Live(s) { LiveHasNoHeldCurrent(s, source); }
    if similar != {} && source.id in s.sourceActive && s.sourceActive[source.id] != Least(similar) {
      var current := s.sourceActive[source.id];
      if current in s.encounters { MergeLive(s, current, Least(similar)); } else { MergeWithGone(s, current, Least(similar)); }
    }
  }

  lemma CorrelatedIsLive(s: Engine, server: string, fp: Fingerprint, id: EncounterId)
    requires id in Correlated(s, server, fp)
    ensures LiveIn(s.encounters, id)
  {}

  lemma MergeWithGone(s: Engine, gone: EncounterId, id: EncounterId)
    requires gone != id && gone !in s.encounters && id in s.encounters
    ensures Merge(s, gone, id) == (s, Some(id))
  {}

  lemma RerouteSafe(s: Engine, chosen: Option<EncounterId>, fact: LedgerFact, target: TargetId)
    requires chosen.Some? ==> LiveOrGone(s.encounters, chosen.value)
    ensures var (r, route) := Reroute(s, chosen, fact, target);
            HeldFixed(s, r) && HeldBefore(s, r) && (Live(s) ==> Live(r))
            && (route.Into? ==> chosen == Some(route.id) && LiveOrGone(r.encounters, route.id))
            && (route.Into? && LiveIn(s.encounters, route.id) ==> LiveIn(r.encounters, route.id))
  {
    hide Live, HeldFixed, HeldBefore;
    if chosen.None? {
      NothingTouched(s);
    } else {
      assert Touches(s, Reroute(s, chosen, fact, target).0, chosen.value);
      TouchesLive(s, Reroute(s, chosen, fact, target).0, chosen.value);
    }
  }

  lemma NothingTouched(s: Engine)
    ensures HeldFixed(s, s) && HeldBefore(s, s)
  {}

  lemma RoutedSafe(s: Engine, fact: LedgerFact)
    requires fact.event.Damage? && !CurrentHeld(s, fact.source)
    ensures var (r, route) := Routed(s, fact);
            HeldFixed(s, r) && HeldBefore(s, r) && (Live(s) ==> Live(r))
            && (route.Into? ==> LiveOrGone(r.encounters, route.id)) && (Live(s) && route.Into? ==> LiveIn(r.encounters, route.id))
  {
    hide Choose, Reroute, Read, Live, HeldFixed, HeldBefore;
    var v := Read(s, fact);
    ChooseSafe(s, fact.source, v.fingerprint);
    var (s1, chosen) := Choose(s, fact.source, v.fingerprint);
    RerouteSafe(s1, chosen, fact, v.target);
    HeldFixedTwice(s, s1, Routed(s, fact).0);
    HeldBeforeTwice(s, s1, Routed(s, fact).0);
  }

  lemma MintSafe(s: Engine, fact: LedgerFact, v: Reading)
    ensures var (r, id) := Mint(s, fact, v);
            HeldFixed(s, r) && (Live(s) ==> Live(r))
            && (id.Some? ==> v.startQualified && id.value in r.encounters
                             && (LiveIn(r.encounters, id.value) <==> !(id.value in s.encounters && s.encounters[id.value].phase.Held?)))
  {
    hide LateAfterClosure, MintId;
    var (r, id) := Mint(s, fact, v);
    if Live(s) {
      forall x | x in r.sourceActive ensures LiveIn(r.encounters, r.sourceActive[x]) {
        assert LiveIn(s.encounters, s.sourceActive[x]);
      }
    }
  }

  // ----- the exact condition -----

  /** The mint branch runs into a held encounter that already has the minted id. */
  ghost predicate ReusesHeld(s: Engine, fact: LedgerFact)
    requires fact.event.Damage?
  {
    var id := MintsInto(s, fact);
    id.Some? && id.value in Routed(s, fact).0.encounters && Routed(s, fact).0.encounters[id.value].phase.Held?
  }

  lemma StartJoins(s: Engine, fact: LedgerFact, t: Engine, id: EncounterId)
    requires fact.event.Damage?
    ensures Read(s, fact).startQualified ==> Joins(t, id, Read(s, fact))
  {}

  /** The fact is correlated with a live encounter while the source's own is held: the
      merge re-opens the held encounter or drops it, and either way its snapshot is gone. */
  ghost predicate MergesHeld(s: Engine, fact: LedgerFact)
    requires fact.event.Damage?
  {
    CurrentHeld(s, fact.source) && Correlated(s, fact.source.server, Read(s, fact).fingerprint) != {}
  }

  /** The fact goes into the source's own held encounter. */
  ghost predicate JoinsHeld(s: Engine, fact: LedgerFact)
    requires fact.event.Damage?
  {
    CurrentHeld(s, fact.source) && Joins(s, s.sourceActive[fact.source.id], Read(s, fact))
  }

  /** The encounter at this id is no longer held. */
  predicate Unheld(s: Engine, id: EncounterId) { id in s.encounters ==> !s.encounters[id].phase.Held? }

  lemma MergeUnholds(s: Engine, held: EncounterId, id: EncounterId)
    requires held != id && held in s.encounters && id in s.encounters
    ensures var (r, merged) := Merge(s, held, id);
            Unheld(r, held) && merged.Some? && merged.value in r.encounters && r.encounters[merged.value].phase == Active
  {
    hide Join, Redirect;
    JoinIsActive(s.encounters[held], s.encounters[id]);
    JoinIsActive(s.encounters[id], s.encounters[held]);
  }

  lemma SettleUnheld(s: Engine, id: EncounterId, index: nat, v: Reading, held: EncounterId)
    requires index < |s.ledger| && Unheld(s, held)
    ensures Unheld(Settle(s, id, index, v), held)
  {
    hide Store, AddMember, PromoteUpTo, KnowsTarget, Contributes;
    var fact := s.ledger[index];
    if Joins(s, id, v) {
      var joined := AddMember(s, id, fact.source);
      AddMemberTouches(s, id, fact.source);
      StoreTouches(joined, id, index, v, Contributes(s, id, v));
      var stored := Store(joined, id, index, v, Contributes(s, id, v));
      var active := stored.(sourceActive := stored.sourceActive[fact.source.id := id]);
      PromoteTouches(active, id, fact.source.id, v.target, fact.eqTime, |active.ledger|);
    }
  }

  /** After such a merge the held encounter is gone or active again. */
  lemma MergeLosesHeld(s: Engine, index: nat)
    requires index < |s.ledger| && s.ledger[index].event.Damage? && MergesHeld(s, s.ledger[index])
    ensures Unheld(ProcessDamage(s, index), s.sourceActive[s.ledger[index].source.id])
  {
    hide Settle, Read, Merge, Correlated;
    var fact := s.ledger[index];
    var v := Read(s, fact);
    var held, other := s.sourceActive[fact.source.id], Least(Correlated(s, fact.source.server, v.fingerprint));
    CorrelatedIsLive(s, fact.source.server, v.fingerprint, other);
    MergeUnholds(s, held, other);
    var (r, merged) := Merge(s, held, other);
    assert Place(s, fact) == (r, merged);
    SettleUnheld(r, merged.value, index, v, held);
  }

  /** Without a correlated encounter a fact of a source whose own encounter is held goes there. */
  lemma HeldIsChosen(s: Engine, fact: LedgerFact)
    requires fact.event.Damage? && CurrentHeld(s, fact.source) && !MergesHeld(s, fact)
    ensures Place(s, fact) == (s, Some(s.sourceActive[fact.source.id]))
  { hide Read, Correlated; }

  lemma UnheldBreaks(s: Engine, r: Engine, id: EncounterId)
    requires id in s.encounters && s.encounters[id].phase.Held? && Unheld(r, id)
    ensures !HeldFixed(s, r) && !SnapshotsKept(s, r)
  {}

  /** A fact of a source whose own encounter is not held. */
  lemma DamageElsewhere(s: Engine, index: nat)
    requires index < |s.ledger| && s.ledger[index].event.Damage? && !CurrentHeld(s, s.ledger[index].source)
    ensures var r := ProcessDamage(s, index);
            SnapshotsKept(s, r) && (HeldFixed(s, r) <==> !ReusesHeld(s, s.ledger[index]))
            && (Live(s) ==> (Live(r) <==> !ReusesHeld(s, s.ledger[index])))
  {
    hide Routed, Mint, Settle, Read, Live, HeldFixed, HeldBefore, SnapshotsKept, CurrentHeld;
    var fact := s.ledger[index];
    var (routed, route) := Routed(s, fact);
    var v := Read(s, fact);
    RoutedSafe(s, fact);
    FixedKeepsSnapshots(s, routed);
    var (placed, chosen) := Place(s, fact);
    if route.Unrouted? {
      MintSafe(routed, fact, v);
      HeldFixedTwice(s, routed, placed);
      FixedKeepsSnapshots(s, placed);
    }
    if chosen.Some? {
      var r := ProcessDamage(s, index);
      SettleTouches(placed, chosen.value, index, v);
      SnapshotsKeptTwice(s, placed, r);
      StartJoins(s, fact, placed, chosen.value);
      if ReusesHeld(s, fact) {
        ReuseBreaks(s, routed, placed, r, chosen.value);
      } else {
        HeldFixedTwice(s, placed, r);
      }
    }
  }

  lemma ReuseBreaks(s: Engine, routed: Engine, placed: Engine, r: Engine, id: EncounterId)
    requires HeldFixed(routed, placed) && id in routed.encounters && routed.encounters[id].phase.Held?
    requires id in r.encounters && r.encounters[id] != placed.encounters[id] && HeldBefore(s, routed)
    ensures !HeldFixed(s, r)
  {
    assert placed.encounters[id] == routed.encounters[id];
    assert id in s.encounters && s.encounters[id] == routed.encounters[id];
  }

  /** A damage fact changes a held encounter in exactly three cases, from any state: it
      merges the source's own held encounter away, joins it, or mints a held id. */
  ghost predicate ChangesHeld(s: Engine, fact: LedgerFact)
    requires fact.event.Damage?
  {
    if CurrentHeld(s, fact.source) then MergesHeld(s, fact) || JoinsHeld(s, fact) else ReusesHeld(s, fact)
  }

  lemma DamageTouchesHeldIff(s: Engine, index: nat)
    requires index < |s.ledger| && s.ledger[index].event.Damage?
    ensures HeldFixed(s, ProcessDamage(s, index)) <==> !ChangesHeld(s, s.ledger[index])
    ensures Live(s) ==> (Live(ProcessDamage(s, index)) <==> !ReusesHeld(s, s.ledger[index]))
  {
    hide Settle, Read, Live, HeldFixed, SnapshotsKept, Place, Joins, ReusesHeld;
    var fact := s.ledger[index];
    if Live(s) { LiveHasNoHeldCurrent(s, fact.source); }
    if !CurrentHeld(s, fact.source) {
      DamageElsewhere(s, index);
    } else if MergesHeld(s, fact) {
      MergeLosesHeld(s, index);
      UnheldBreaks(s, ProcessDamage(s, index), s.sourceActive[fact.source.id]);
    } else {
      HeldIsChosen(s, fact);
      var id := s.sourceActive[fact.source.id];
      SettleTouches(s, id, index, Read(s, fact));
      if JoinsHeld(s, fact) { ChangedIsNotFixed(s, ProcessDamage(s, index), id); }
    }
  }

  lemma ChangedIsNotFixed(s: Engine, r: Engine, id: EncounterId)
    requires id in s.encounters && s.encounters[id].phase.Held? && id in r.encounters && r.encounters[id] != s.encounters[id]
    ensures !HeldFixed(s, r)
  {}

  /** A frozen snapshot is lost to a damage fact exactly when the fact merges its
      encounter away: the source's own encounter is held and another one correlates. */
  lemma DamageLosesSnapshotIff(s: Engine, index: nat)
    requires index < |s.ledger| && s.ledger[index].event.Damage?
    ensures SnapshotsKept(s, ProcessDamage(s, index)) <==> !MergesHeld(s, s.ledger[index])
  {
    hide Settle, Read, Live, HeldFixed, SnapshotsKept, Place, Joins, ReusesHeld;
    var fact := s.ledger[index];
    if !CurrentHeld(s, fact.source) {
      DamageElsewhere(s, index);
    } else if MergesHeld(s, fact) {
      MergeLosesHeld(s, index);
      UnheldBreaks(s, ProcessDamage(s, index), s.sourceActive[fact.source.id]);
    } else {
      HeldIsChosen(s, fact);
      SettleTouches(s, s.sourceActive[fact.source.id], index, Read(s, fact));
    }
  }

  // ----- attempts, deaths, events -----

  /** Held encounters are fixed and the active index stays live. */
  ghost predicate Harmless(s: Engine, s': Engine) { HeldFixed(s, s') && (Live(s) ==> Live(s')) }

  /** An attempt changes a held encounter exactly when the source's own is held and knows
      one of the two names; snapshots are kept always. */
  lemma AttemptTouchesHeldIff(s: Engine, index: nat)
    requires index < |s.ledger| && s.ledger[index].event.Attempt?
    ensures var fact := s.ledger[index]; var r := ProcessAttempt(s, index);
            (HeldFixed(s, r) <==>
               !(CurrentHeld(s, fact.source)
                 && (KnowsTarget(s, s.sourceActive[fact.source.id], Target(fact.source, fact.event.defender))
                     || KnowsTarget(s, s.sourceActive[fact.source.id], Target(fact.source, fact.event.attacker)))))
            && SnapshotsKept(s, r) && (Live(s) ==> Live(r))
  {
    hide Target, HeldFixed, SnapshotsKept, Live;
    var r := ProcessAttempt(s, index);
    HeldFixedRefl(s);
    FixedKeepsSnapshots(s, s);
    if r != s {
      var id := s.sourceActive[s.ledger[index].source.id];
      assert Touches(s, r, id);
      TouchesLive(s, r, id);
      assert |r.encounters[id].facts| == |s.encounters[id].facts| + 1;
      if CurrentHeld(s, s.ledger[index].source) { ChangedIsNotFixed(s, r, id); }
    }
  }

  lemma AttemptHarmless(s: Engine, index: nat)
    requires Live(s) && index < |s.ledger| && s.ledger[index].event.Attempt?
    ensures Harmless(s, ProcessAttempt(s, index))
  {
    hide ProcessAttempt, HeldFixed, Live, SnapshotsKept;
    AttemptTouchesHeldIff(s, index);
    LiveHasNoHeldCurrent(s, s.ledger[index].source);
  }

  lemma SlainInBook(s: Engine, source: LogSource, target: TargetId)
    ensures var chosen := SlainIn(s, source, target);
            (chosen.Some? ==> KnowsTarget(s, chosen.value, target))
            && (chosen.Some? && s.encounters[chosen.value].phase.Held? <==>
                  CurrentHeld(s, source) && KnowsTarget(s, s.sourceActive[source.id], target))
  {}

  /** A death changes a held encounter exactly when the source's own is held and knows the
      target; snapshots are kept always. */
  lemma SlainTouchesHeldIff(s: Engine, index: nat)
    requires index < |s.ledger| && s.ledger[index].event.Slain?
    ensures var fact := s.ledger[index]; var r := ProcessSlain(s, index);
            (HeldFixed(s, r) <==>
               !(CurrentHeld(s, fact.source) && KnowsTarget(s, s.sourceActive[fact.source.id], Target(fact.source, fact.event.target))))
            && SnapshotsKept(s, r) && (Live(s) ==> Live(r))
  {
    hide SlainIn, Live, HeldFixed, SnapshotsKept, Target;
    var fact := s.ledger[index];
    var target := Target(fact.source, fact.event.target);
    var chosen := SlainIn(s, fact.source, target);
    SlainInBook(s, fact.source, target);
    HeldFixedRefl(s);
    FixedKeepsSnapshots(s, s);
    if chosen.Some? {
      var id := chosen.value;
      var joined := AddMember(s, id, fact.source);
      AddMemberTouches(s, id, fact.source);
      MemberKeepsTargets(s, id, fact.source);
      var r := ProcessSlain(s, index);
      assert |r.encounters[id].facts| == |joined.encounters[id].facts| + 1;
      hide AddMember, KnowsTarget, CurrentHeld;
      assert Touches(joined, r, id);
      TouchesTwice(s, joined, r, id);
      TouchesLive(s, r, id);
      TouchesKeys(s, joined, id);
      if s.encounters[id].phase.Held? { ChangedIsNotFixed(s, r, id); }
    }
  }

  lemma SlainHarmless(s: Engine, index: nat)
    requires Live(s) && index < |s.ledger| && s.ledger[index].event.Slain?
    ensures Harmless(s, ProcessSlain(s, index))
  {
    hide ProcessSlain, HeldFixed, Live, SnapshotsKept;
    SlainTouchesHeldIff(s, index);
    LiveHasNoHeldCurrent(s, s.ledger[index].source);
  }

  ghost predicate HeldGuard(s: Engine) {
    s.ledger != [] && s.ledger[|s.ledger| - 1].event.Damage? ==> !ReusesHeld(s, s.ledger[|s.ledger| - 1])
  }

  lemma FactHarmless(s: Engine)
    requires Live(s) && s.ledger != [] && HeldGuard(s)
    ensures Harmless(s, ProcessFact(s))
  {
    hide Live, HeldFixed, ProcessDamage, ProcessAttempt, ProcessSlain, ReusesHeld;
    var index := |s.ledger| - 1;
    match s.ledger[index].event {
      case Damage(_, _, _, _, _, _, _, _) =>
        DamageTouchesHeldIff(s, index);
        LiveHasNoHeldCurrent(s, s.ledger[index].source);
      case Attempt(_, _, _) => AttemptHarmless(s, index);
      case Slain(_, _) => SlainHarmless(s, index);
    }
  }

  /** The book and the active index are the same. */
  predicate SameBook(s: Engine, s': Engine) { s'.encounters == s.encounters && s'.sourceActive == s.sourceActive }

  lemma SameBookHarmless(s: Engine, s': Engine)
    requires SameBook(s, s')
    ensures Harmless(s, s')
  {}

  lemma HarmlessTwice(a: Engine, b: Engine, c: Engine)
    requires Harmless(a, b) && Harmless(b, c)
    ensures Harmless(a, c)
  { HeldFixedTwice(a, b, c); }

  lemma EventHarmless(s: Engine, r: Record, now: U64, event: LogEvent)
    requires Live(s) && r.eqTime.Some? && EventGuarded(s, r, now, event, HeldGuard)
    ensures Harmless(s, ApplyEvent(s, r, r.eqTime.value, now, event)) && Live(ApplyEvent(s, r, r.eqTime.value, now, event))
  {
    hide Live, HeldFixed, ProcessFact, HeldGuard, Replayed, CountOccurrence;
    var s' := ApplyEvent(s, r, r.eqTime.value, now, event);
    if event.Combat? {
      var c := CountOccurrence(s, r.id, r.eqTime.value, event.fact);
      CountSameBook(s, r.id, r.eqTime.value, event.fact);
      SameBookHarmless(s, c);
      var a := Append(c, LedgerFact(r.id, r.source, r.eqTime.value, now, event.fact));
      SameBookHarmless(s, a);
      if !Replayed(c, r.id, r.eqTime.value, event.fact) {
        OtherFactsMintNothing(a);
        FactHarmless(a);
        HarmlessTwice(s, a, s');
      }
    } else {
      SameBookHarmless(s, s');
    }
  }

  lemma CountSameBook(s: Engine, id: RecordId, t: EqSecond, fact: FactEvent)
    ensures SameBook(s, CountOccurrence(s, id, t, fact))
  {}

  lemma OtherFactsMintNothing(s: Engine)
    ensures s.ledger != [] && !s.ledger[|s.ledger| - 1].event.Damage? ==> HeldGuard(s)
  {}

  lemma {:induction false} EventsHarmless(s: Engine, r: Record, now: U64, n: nat)
    requires Live(s) && r.eqTime.Some? && n <= |r.events|
    requires forall k | 0 <= k < n :: EventGuarded(ApplyEvents(s, r, r.eqTime.value, now, k), r, now, r.events[k], HeldGuard)
    ensures Harmless(s, ApplyEvents(s, r, r.eqTime.value, now, n)) && Live(ApplyEvents(s, r, r.eqTime.value, now, n))
  {
    hide Live, HeldFixed, ApplyEvent, EventGuarded, Harmless;
    if n == 0 {
      SameBookHarmless(s, s);
    } else {
      EventsHarmless(s, r, now, n - 1);
      var before := ApplyEvents(s, r, r.eqTime.value, now, n - 1);
      assert EventGuarded(before, r, now, r.events[n - 1], HeldGuard);
      EventHarmless(before, r, now, r.events[n - 1]);
      HarmlessTwice(s, before, ApplyEvents(s, r, r.eqTime.value, now, n));
    }
  }

  // ----- inputs and time -----

  /** The record reaches the event loop and does not fit the ledger: the book is withdrawn. */
  ghost predicate Withdraws(s: Engine, r: Record, now: U64)
    requires 0 < s.policy.maxRecordIds
  { Prepare(s, r, now).1 && |s.ledger| + FactCount(r.events) > s.policy.maxLedgerFacts }

  lemma RegisterHarmless(s: Engine, source: LogSource, generation: U64, now: U64)
    ensures var s' := RegisterSource(s, source, generation, now);
            Harmless(s, s') && s'.ledger == s.ledger && s'.policy == s.policy && source.id in s'.sources
  {
    var s' := RegisterSource(s, source, generation, now);
    if Live(s) {
      forall x | x in s'.sourceActive ensures LiveIn(s'.encounters, s'.sourceActive[x]) {
        assert LiveIn(s.encounters, s.sourceActive[x]);
      }
    }
  }

  lemma PartialHarmless(s: Engine, s': Engine, source: SourceId)
    requires s'.encounters == MarkPartial(s.encounters, source) && s'.sourceActive == s.sourceActive
    ensures Harmless(s, s')
  {
    if Live(s) {
      forall x | x in s'.sourceActive ensures LiveIn(s'.encounters, s'.sourceActive[x]) {
        assert LiveIn(s.encounters, s.sourceActive[x]);
      }
    }
  }

  lemma AdmitHarmless(s: Engine, r: Record, now: U64, gap: Option<GapReason>)
    requires r.source.id in s.sources && 0 < s.policy.maxRecordIds
    ensures var a := Admit(s, r, now, gap); Harmless(s, a) && a.ledger == s.ledger
  {
    hide Progress, GapSource, MarkPartial, Harmless;
    var a := Admit(s, r, now, gap);
    if gap.Some? { PartialHarmless(s, a, r.source.id); } else { SameBookHarmless(s, a); }
  }

  lemma PrepareHarmless(s: Engine, r: Record, now: U64)
    requires 0 < s.policy.maxRecordIds
    ensures Live(s) ==> Live(Prepare(s, r, now).0)
    ensures !Withdraws(s, r, now) ==> Harmless(s, Prepare(s, r, now).0)
  {
    hide RegisterSource, Admit, Judge, Usable, Live, HeldFixed, FactCount;
    SameBookHarmless(s, s);
    if !(r.id.source != r.source.id || r.id in s.accepted) {
      RegisterHarmless(s, r.source, r.id.generation, now);
      var known := if r.source.id in s.sources then s else RegisterSource(s, r.source, r.id.generation, now);
      if Judge(known, r).Accept? {
        AdmitHarmless(known, r, now, Judge(known, r).gap);
        HarmlessTwice(s, known, Admit(known, r, now, Judge(known, r).gap));
        EmptyIsLive(Admit(known, r, now, Judge(known, r).gap));
      }
    }
  }

  lemma EmptyIsLive(s: Engine)
    ensures Live(Withdraw(s))
  {}

  lemma RecordHarmless(s: Engine, r: Record, now: U64)
    requires 0 < s.policy.maxRecordIds && Live(s) && RecordGuarded(s, r, now, HeldGuard)
    ensures Live(ApplyRecord(s, r, now))
    ensures !Withdraws(s, r, now) ==> Harmless(s, ApplyRecord(s, r, now))
  {
    hide Prepare, ApplyEvents, Live, HeldFixed, EventGuarded, Harmless, Withdraws;
    PrepareHarmless(s, r, now);
    var (p, reached) := Prepare(s, r, now);
    if reached {
      EventsHarmless(p, r, now, |r.events|);
      if !Withdraws(s, r, now) { HarmlessTwice(s, p, ApplyRecord(s, r, now)); }
    }
  }

  lemma InputHarmless(s: Engine, at: U64, input: Input)
    requires 0 < s.policy.maxRecordIds && Live(s)
    requires input.NewRecord? ==> RecordGuarded(s, input.record, at, HeldGuard)
    ensures Live(ApplyInput(s, at, input))
    ensures !(input.NewRecord? && Withdraws(s, input.record, at)) ==> Harmless(s, ApplyInput(s, at, input))
  {
    hide ApplyRecord, RegisterSource, MarkPartial, RecordGuarded, Live, HeldFixed, Withdraws;
    if input.NewRecord? { RecordHarmless(s, input.record, at); } else { OtherInputHarmless(s, at, input); }
  }

  lemma OtherInputHarmless(s: Engine, at: U64, input: Input)
    requires 0 < s.policy.maxRecordIds && !input.NewRecord?
    ensures Harmless(s, ApplyInput(s, at, input))
  {
    hide RegisterSource, MarkPartial, Live, HeldFixed;
    match input {
      case Registered(source, generation) => RegisterHarmless(s, source, generation, at);
      case Removed(source) => PartialHarmless(s, RemoveSource(s, source), source);
      case Gap(source, generation, reason) => PartialHarmless(s, MarkGap(s, source, generation, reason), source);
      case StableEof(source, generation) => SameBookHarmless(s, NoteStableEof(s, source, generation, at));
    }
  }

  /** Time removes a held encounter when it expires and otherwise leaves it as it is. */
  ghost predicate HeldUntilExpiry(s: Engine, s': Engine, now: U64) {
    forall id | id in s.encounters && s.encounters[id].phase.Held? ::
      if Expired(s.encounters[id], now) then id !in s'.encounters
      else id in s'.encounters && s'.encounters[id] == s.encounters[id]
  }

  lemma TimeHeld(s: Engine, now: U64, publish: Publisher)
    ensures HeldUntilExpiry(s, AdvanceTime(s, now, publish), now)
    ensures Live(s) ==> Live(AdvanceTime(s, now, publish))
  {
    hide ClosedSources;
    var s' := AdvanceTime(s, now, publish);
    if Live(s) {
      forall x | x in s'.sourceActive ensures LiveIn(s'.encounters, s'.sourceActive[x]) {
        assert LiveIn(s.encounters, s.sourceActive[x]);
      }
    }
  }

  /** One step of a guarded run: held encounters stay exactly as they are until
      they expire, and the active index stays live. */
  lemma HeldImmutable(s: Engine, step: Step, publish: Publisher)
    requires 0 < s.policy.maxRecordIds && Live(s) && StepGuarded(s, step, HeldGuard)
    ensures Live(StepOnce(s, step, publish))
    ensures !StepWithdraws(s, step) ==> HeldUntilExpiry(s, StepOnce(s, step, publish), Max(s.now, step.at))
  {
    hide Live, HeldFixed, AdvanceTime, ApplyInput, RecordGuarded, HeldUntilExpiry, Withdraws;
    var c := Clocked(s, step.at);
    SameBookHarmless(s, c);
    SameBookHarmless(c, c);
    var changed := Changed(s, step);
    if step.Apply? { InputHarmless(c, step.at, step.input); }
    TimeHeld(changed, Max(s.now, step.at), publish);
    if !StepWithdraws(s, step) {
      HarmlessTwice(s, c, changed);
      FixedThenExpired(s, changed, StepOnce(s, step, publish), Max(s.now, step.at));
    }
  }

  ghost predicate StepWithdraws(s: Engine, step: Step)
    requires 0 < s.policy.maxRecordIds
  {
    step.Apply? && step.input.NewRecord? && Withdraws(Clocked(s, step.at), step.input.record, step.at)
  }

  lemma FixedThenExpired(a: Engine, b: Engine, c: Engine, now: U64)
    requires HeldFixed(a, b) && HeldUntilExpiry(b, c, now)
    ensures HeldUntilExpiry(a, c, now)
  {
    forall id | id in a.encounters && a.encounters[id].phase.Held?
      ensures if Expired(a.encounters[id], now) then id !in c.encounters
              else id in c.encounters && c.encounters[id] == a.encounters[id]
    { assert id in b.encounters && b.encounters[id] == a.encounters[id]; }
  }

  /** `source_active` only names live, non-held encounters in every reachable state of
      a run whose minted ids never meet a held encounter. */
  lemma {:induction false} LiveOverRuns(policy: Policy, steps: seq<Step>, publish: Publisher, k: nat)
    requires policy.Valid() && k <= |steps| && RunGuarded(NewEngine(policy), steps, publish, HeldGuard)
    ensures Live(Run(NewEngine(policy), steps[..k], publish))
  {
    hide Live, StepOnce, Run, StepGuarded;
    var s := NewEngine(policy);
    if k == 0 {
      StartsLive(policy, steps, publish);
    } else {
      LiveOverRuns(policy, steps, publish, k - 1);
      RunStep(s, steps, publish, k - 1);
      HeldImmutable(Run(s, steps[..k - 1], publish), steps[k - 1], publish);
    }
  }

  lemma StartsLive(policy: Policy, steps: seq<Step>, publish: Publisher)
    requires 0 < policy.maxRecordIds
    ensures Live(Run(NewEngine(policy), steps[..0], publish))
  {}

  /** Over any such run, a held encounter is unchanged from step j to step k as long
      as its time has not come and the book has not been withdrawn. */
  lemma {:induction false} HeldImmutableOverRuns(policy: Policy, steps: seq<Step>, publish: Publisher, j: nat, k: nat, id: EncounterId)
    requires policy.Valid() && j <= k <= |steps| && RunGuarded(NewEngine(policy), steps, publish, HeldGuard)
    requires forall i | j <= i < k :: !StepWithdraws(Run(NewEngine(policy), steps[..i], publish), steps[i])
    requires var at := Run(NewEngine(policy), steps[..j], publish);
             id in at.encounters && at.encounters[id].phase.Held?
             && Run(NewEngine(policy), steps[..k], publish).now < at.encounters[id].phase.until
    ensures var at, later := Run(NewEngine(policy), steps[..j], publish), Run(NewEngine(policy), steps[..k], publish);
            id in later.encounters && later.encounters[id] == at.encounters[id]
    decreases k
  {
    hide Live, StepOnce, Run, StepGuarded, StepWithdraws;
    var s := NewEngine(policy);
    if j < k {
      var before := Run(s, steps[..k - 1], publish);
      RunStep(s, steps, publish, k - 1);
      assert before.now <= Run(s, steps[..k], publish).now;
      HeldImmutableOverRuns(policy, steps, publish, j, k - 1, id);
      LiveOverRuns(policy, steps, publish, k - 1);
      HeldImmutable(before, steps[k - 1], publish);
    }
  }

  // ----- snapshots over runs -----

  /** Frozen snapshots need less than whole encounters do: only merges can lose them. */
  ghost predicate SnapshotGuard(s: Engine) {
    s.ledger != [] && s.ledger[|s.ledger| - 1].event.Damage? ==> !MergesHeld(s, s.ledger[|s.ledger| - 1])
  }

  lemma FactKeepsSnapshots(s: Engine)
    requires s.ledger != [] && SnapshotGuard(s)
    ensures SnapshotsKept(s, ProcessFact(s))
  {
    hide SnapshotsKept, HeldFixed, Live, ProcessDamage, ProcessAttempt, ProcessSlain, MergesHeld;
    var index := |s.ledger| - 1;
    match s.ledger[index].event {
      case Damage(_, _, _, _, _, _, _, _) => DamageLosesSnapshotIff(s, index);
      case Attempt(_, _, _) => AttemptTouchesHeldIff(s, index);
      case Slain(_, _) => SlainTouchesHeldIff(s, index);
    }
  }

  lemma SameBookKeepsSnapshots(s: Engine, s': Engine)
    requires s'.encounters == s.encounters
    ensures SnapshotsKept(s, s')
  {}

  lemma EventKeepsSnapshots(s: Engine, r: Record, now: U64, event: LogEvent)
    requires r.eqTime.Some? && EventGuarded(s, r, now, event, SnapshotGuard)
    ensures SnapshotsKept(s, ApplyEvent(s, r, r.eqTime.value, now, event))
  {
    hide SnapshotsKept, ProcessFact, SnapshotGuard, Replayed, CountOccurrence;
    var s' := ApplyEvent(s, r, r.eqTime.value, now, event);
    if event.Combat? {
      var c := CountOccurrence(s, r.id, r.eqTime.value, event.fact);
      CountSameBook(s, r.id, r.eqTime.value, event.fact);
      SameBookKeepsSnapshots(s, c);
      var a := Append(c, LedgerFact(r.id, r.source, r.eqTime.value, now, event.fact));
      SameBookKeepsSnapshots(s, a);
      if !Replayed(c, r.id, r.eqTime.value, event.fact) {
        OthersKeepSnapshots(a);
        FactKeepsSnapshots(a);
        SnapshotsKeptTwice(s, a, s');
      }
    } else {
      SameBookKeepsSnapshots(s, s');
    }
  }

  lemma OthersKeepSnapshots(s: Engine)
    ensures s.ledger != [] && !s.ledger[|s.ledger| - 1].event.Damage? ==> SnapshotGuard(s)
  {}

  lemma {:induction false} EventsKeepSnapshots(s: Engine, r: Record, now: U64, n: nat)
    requires r.eqTime.Some? && n <= |r.events|
    requires forall k | 0 <= k < n :: EventGuarded(ApplyEvents(s, r, r.eqTime.value, now, k), r, now, r.events[k], SnapshotGuard)
    ensures SnapshotsKept(s, ApplyEvents(s, r, r.eqTime.value, now, n))
  {
    hide SnapshotsKept, ApplyEvent, EventGuarded;
    if n == 0 {
      SameBookKeepsSnapshots(s, s);
    } else {
      EventsKeepSnapshots(s, r, now, n - 1);
      var before := ApplyEvents(s, r, r.eqTime.value, now, n - 1);
      assert EventGuarded(before, r, now, r.events[n - 1], SnapshotGuard);
      EventKeepsSnapshots(before, r, now, r.events[n - 1]);
      SnapshotsKeptTwice(s, before, ApplyEvents(s, r, r.eqTime.value, now, n));
    }
  }

  lemma RecordKeepsSnapshots(s: Engine, r: Record, now: U64)
    requires 0 < s.policy.maxRecordIds && RecordGuarded(s, r, now, SnapshotGuard) && !Withdraws(s, r, now)
    ensures SnapshotsKept(s, ApplyRecord(s, r, now))
  {
    hide Prepare, ApplyEvents, Live, HeldFixed, SnapshotsKept, EventGuarded, Withdraws;
    PrepareHarmless(s, r, now);
    var (p, reached) := Prepare(s, r, now);
    FixedKeepsSnapshots(s, p);
    if reached {
      EventsKeepSnapshots(p, r, now, |r.events|);
      SnapshotsKeptTwice(s, p, ApplyRecord(s, r, now));
    }
  }

  /** Until its time comes a held encounter stays held with its snapshot; then it is gone. */
  ghost predicate SnapshotsUntilExpiry(s: Engine, s': Engine, now: U64) {
    forall id | id in s.encounters && s.encounters[id].phase.Held? ::
      if Expired(s.encounters[id], now) then id !in s'.encounters
      else id in s'.encounters && SameIfHeld(s.encounters[id], s'.encounters[id])
  }

  lemma KeptThenExpired(a: Engine, b: Engine, c: Engine, now: U64)
    requires SnapshotsKept(a, b) && HeldUntilExpiry(b, c, now)
    ensures SnapshotsUntilExpiry(a, c, now)
  {
    forall id | id in a.encounters && a.encounters[id].phase.Held?
      ensures if Expired(a.encounters[id], now) then id !in c.encounters
              else id in c.encounters && SameIfHeld(a.encounters[id], c.encounters[id])
    { assert id in b.encounters && SameIfHeld(a.encounters[id], b.encounters[id]); }
  }

  lemma StepKeepsSnapshots(s: Engine, step: Step, publish: Publisher)
    requires 0 < s.policy.maxRecordIds && StepGuarded(s, step, SnapshotGuard) && !StepWithdraws(s, step)
    ensures SnapshotsUntilExpiry(s, StepOnce(s, step, publish), Max(s.now, step.at))
  {
    hide SnapshotsKept, HeldFixed, Live, AdvanceTime, ApplyRecord, RecordGuarded, HeldUntilExpiry, SnapshotsUntilExpiry, Withdraws;
    var c := Clocked(s, step.at);
    SameBookKeepsSnapshots(s, c);
    var changed := Changed(s, step);
    if step.Apply? {
      if step.input.NewRecord? {
        RecordKeepsSnapshots(c, step.input.record, step.at);
      } else {
        OtherInputHarmless(c, step.at, step.input);
        FixedKeepsSnapshots(c, changed);
      }
      SnapshotsKeptTwice(s, c, changed);
    }
    TimeHeld(changed, Max(s.now, step.at), publish);
    KeptThenExpired(s, changed, StepOnce(s, step, publish), Max(s.now, step.at));
  }

  /** Finalized snapshots never mutate in any run without such a merge: a held encounter
      keeps its phase and its frozen snapshot until its time comes, even if held ids are
      reused, as long as the book is not withdrawn. */
  lemma {:induction false} SnapshotsOverRuns(policy: Policy, steps: seq<Step>, publish: Publisher, j: nat, k: nat, id: EncounterId)
    requires policy.Valid() && j <= k <= |steps| && RunGuarded(NewEngine(policy), steps, publish, SnapshotGuard)
    requires forall i | j <= i < k :: !StepWithdraws(Run(NewEngine(policy), steps[..i], publish), steps[i])
    requires var at := Run(NewEngine(policy), steps[..j], publish);
             id in at.encounters && at.encounters[id].phase.Held?
             && Run(NewEngine(policy), steps[..k], publish).now < at.encounters[id].phase.until
    ensures var at, later := Run(NewEngine(policy), steps[..j], publish), Run(NewEngine(policy), steps[..k], publish);
            id in later.encounters && later.encounters[id].phase == at.encounters[id].phase
            && later.encounters[id].frozen == at.encounters[id].frozen
    decreases k
  {
    hide StepOnce, Run, StepGuarded, StepWithdraws;
    var s := NewEngine(policy);
    if j < k {
      var before := Run(s, steps[..k - 1], publish);
      RunStep(s, steps, publish, k - 1);
      assert before.now <= Run(s, steps[..k], publish).now;
      SnapshotsOverRuns(policy, steps, publish, j, k - 1, id);
      StepKeepsSnapshots(before, steps[k - 1], publish);
    }
  }
}
