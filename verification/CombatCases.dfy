/** Runs of the engine, from its start, in which the promises about held encounters,
    snapshots, assignments and qualified hits fail: the exact conditions proved elsewhere
    do occur. */
module CombatCases {
  import opened Foundations
  import opened CombatModel
  import opened CombatSteps
  import opened CombatPartition
  import opened CombatHeld
  import opened CombatHits
  import CombatDeadlines
  import opened Election
  import opened Standings

  // ----- records with one hit -----

  /** The record is accepted without a gap, finds room, and its source is known. */
  predicate Smooth(s: Engine, r: Record) {
    r.id.source == r.source.id && r.id !in s.accepted && |s.acceptedOrder| < s.policy.maxRecordIds
    && |s.ledger| + FactCount(r.events) <= s.policy.maxLedgerFacts && r.eqTime.Some?
    && r.source.id in s.sources
    && var st := s.sources[r.source.id];
       st.generation == r.id.generation && (st.lastSequence.Some? ==> st.lastSequence.value < r.id.sequence)
       && (st.observed.Some? ==> st.observed.value <= r.eqTime.value) && st.closedThrough.None? && st.historyFloor.None?
  }

  /** The engine after such a record has been admitted. */
  function Admitted(s: Engine, r: Record, now: U64): Engine
    requires r.source.id in s.sources
  {
    s.(accepted := s.accepted + {r.id}, acceptedOrder := s.acceptedOrder + [r.id],
       sources := s.sources[r.source.id := Progress(s.sources[r.source.id], r, now)])
  }

  lemma SmoothPrepares(s: Engine, r: Record, now: U64)
    requires 0 < s.policy.maxRecordIds && Smooth(s, r)
    ensures Prepare(s, r, now) == (Admitted(s, r, now), true)
  {
    hide FactCount;
    var order := s.acceptedOrder + [r.id];
    assert order[0..] == order;
    NothingEvicted(order, 0);
    assert order[..0] == [];
    assert Remember(s, r.id) == s.(accepted := s.accepted + {r.id}, acceptedOrder := order);
  }

  lemma NothingEvicted(order: seq<RecordId>, n: nat)
    requires n <= |order|
    ensures forall x | x in (set i | 0 <= i < n :: order[i]) :: x in order[..n]
  {}

  /** A record of a source that is not known yet registers it first. */
  lemma NewcomerPrepares(s: Engine, r: Record, now: U64)
    requires 0 < s.policy.maxRecordIds && r.id.source == r.source.id && r.id !in s.accepted && r.source.id !in s.sources
    ensures Prepare(s, r, now) == Prepare(RegisterSource(s, r.source, r.id.generation, now), r, now)
  {
    hide Judge, Admit, Usable, MakeRoom;
    RegisterKnows(s, r.source, r.id.generation, now);
  }

  /** In the first generation nothing is a replay. */
  lemma FirstGenerationAppends(s: Engine, r: Record, t: EqSecond, now: U64, fact: FactEvent)
    requires r.id.generation == 0
    ensures ApplyEvent(s, r, t, now, Combat(fact))
            == ProcessFact(Append(CountOccurrence(s, r.id, t, fact), LedgerFact(r.id, r.source, t, now, fact)))
  { hide ProcessFact, CountOccurrence; }

  // ----- one hit -----

  /** No other fact of the source is waiting to be promoted. */
  predicate NothingWaits(s: Engine, index: nat)
    requires index < |s.ledger|
  { forall i | 0 <= i < |s.ledger| && i != index :: i in s.assignments || s.ledger[i].source.id != s.ledger[index].source.id }

  lemma {:induction false} NothingPromoted(s: Engine, id: EncounterId, source: SourceId, target: TargetId, anchor: EqSecond, n: nat)
    requires n <= |s.ledger| && forall i | 0 <= i < n :: i in s.assignments || s.ledger[i].source.id != source
    ensures PromoteUpTo(s, id, source, target, anchor, n) == s
  { if n > 0 { NothingPromoted(s, id, source, target, anchor, n - 1); } }

  /** The encounter with the hit added, its source a member. */
  function WithHit(s: Engine, e: Encounter, index: nat, v: Reading): Encounter
    requires index < |s.ledger|
  {
    var fact := s.ledger[index];
    Absorb(if fact.source.id in e.sources then e else NewMember(s.sources, e, fact.source), index, fact, v, true)
  }

  function HitJoined(s: Engine, id: EncounterId, e: Encounter, index: nat, v: Reading): Engine
    requires index < |s.ledger|
  {
    s.(encounters := s.encounters[id := WithHit(s, e, index, v)], assignments := s.assignments[index := id],
       sourceActive := s.sourceActive[s.ledger[index].source.id := id])
  }

  lemma QualifiedSettles(s: Engine, id: EncounterId, index: nat, v: Reading)
    requires index < |s.ledger| && id in s.encounters && NothingWaits(s, index)
    requires v.startQualified && v.positive && v.hostile
    ensures Settle(s, id, index, v) == HitJoined(s, id, s.encounters[id], index, v)
  {
    hide Absorb, NewMember, PromoteUpTo;
    var j := HitJoined(s, id, s.encounters[id], index, v);
    var fact := s.ledger[index];
    var joined := AddMember(s, id, fact.source);
    assert joined.encounters[id] == if fact.source.id in s.encounters[id].sources then s.encounters[id] else NewMember(s.sources, s.encounters[id], fact.source);
    var stored := Store(joined, id, index, v, true);
    assert stored.encounters == s.encounters[id := WithHit(s, s.encounters[id], index, v)];
    assert stored.(sourceActive := stored.sourceActive[fact.source.id := id]) == j;
    NothingPromoted(j, id, s.ledger[index].source.id, v.target, s.ledger[index].eqTime, |j.ledger|);
  }

  /** A qualified hit of a source without an encounter, correlated with nothing and late for
      nothing, goes to the encounter of its minted id, new or old. */
  lemma UnattachedHit(s: Engine, index: nat, id: EncounterId)
    requires index < |s.ledger| && s.ledger[index].event.Damage? && NothingWaits(s, index)
    requires s.ledger[index].source.id !in s.sourceActive && !LateAfterClosure(s, s.ledger[index])
    requires var v := Read(s, s.ledger[index]);
             v.startQualified && v.positive && v.hostile
             && Correlated(s, s.ledger[index].source.server, v.fingerprint) == {}
             && id == MintId(s.ledger[index].source, s.ledger[index].eqTime, v.target, v.participant)
    requires |s.encounters| < s.policy.maxEncounters
    ensures MintsInto(s, s.ledger[index]) == Some(id) && Routed(s, s.ledger[index]).0 == s
    ensures ProcessDamage(s, index)
            == HitJoined(s, id, if id in s.encounters then s.encounters[id] else Fresh(s, id, s.ledger[index]), index, Read(s, s.ledger[index]))
  {
    hide Read, Correlated, LateAfterClosure, MintId, Settle, Absorb, NewMember, Fresh;
    var fact := s.ledger[index];
    var v := Read(s, fact);
    assert Routed(s, fact) == (s, Unrouted);
    var placed := if id in s.encounters then s else s.(encounters := s.encounters[id := Fresh(s, id, fact)]);
    assert Place(s, fact) == (placed, Some(id));
    QualifiedSettles(placed, id, index, v);
    if id !in s.encounters { assert placed.encounters[id := WithHit(s, placed.encounters[id], index, v)] == s.encounters[id := WithHit(s, placed.encounters[id], index, v)]; }
  }

  // ----- what is said in the logs -----

  const POLICY := Policy(30000, 2000, 8000, 2000, 2, 2000, 6, 16, 100, 100)
  const ANN := LogSource("a", "Ann", "s")
  const BOB := LogSource("b", "Bob", "s")
  const CID := LogSource("c", "Cid", "s")

  function Strike(who: Observed, target: string): FactEvent {
    Damage(who, None, Observed(target, Named), 5, Melee, None, Hit, "")
  }

  /** Bob's hit as others log it, and as his own log has it. */
  function BobHits(target: string): FactEvent { Strike(Observed("Bob", Named), target) }
  function YouHit(target: string): FactEvent { Strike(Observed("You", You), target) }

  const Bob := Participant("s", "bob")

  lemma Names()
    ensures Lower("s") == "s" && Lower("Bob") == "bob" && Lower("orc") == "orc" && Lower("troll") == "troll"
    ensures Lower("Ann") == "ann" && Lower("Cid") == "cid"
    ensures ParticipantFromName("s", "Bob") == Bob
    ensures ParticipantFromName("s", "orc") == Participant("s", "orc")
    ensures ParticipantFromName("s", "troll") == Participant("s", "troll")
  {
    assert Lower("s") == "s" && Lower("Bob") == "bob" && Lower("orc") == "orc" && Lower("troll") == "troll";
    assert Lower("Ann") == "ann" && Lower("Cid") == "cid";
    PlainName("s", "Bob"); PlainName("s", "orc"); PlainName("s", "troll");
  }

  function Print(target: string, t: EqSecond): Fingerprint { Fingerprint(t, "bob", target, 5, Melee, None) }

  /** What the engine reads in a hit of Bob's, once Bob is a verified player. */
  function BobReading(target: string, t: EqSecond): Reading {
    Reading(Bob, target, target, true, true, true, true, true, Print(target, t))
  }

  /** The facts of this story: Bob's own, or another log's hit by Bob. */
  predicate BobFact(fact: LedgerFact, target: string) {
    (target == "orc" || target == "troll") && fact.source.server == "s"
    && (fact.event == BobHits(target) || (fact.event == YouHit(target) && fact.source.character == "Bob"))
  }

  /** Only the three players are verified, and nobody has claimed a pet. */
  predicate Players(s: Engine) {
    s.ownership == [] && Bob in s.verified && s.verified <= {Participant("s", "ann"), Bob, Participant("s", "cid")}
  }

  lemma BobIsRead(s: Engine, fact: LedgerFact, target: string)
    requires Players(s) && BobFact(fact, target)
    ensures Read(s, fact) == BobReading(target, fact.eqTime)
  {
    hide Lower, ParticipantFromName, PossiblePlayerName;
    Names();
    assert Display(fact.source, fact.event.attacker) == "Bob";
    assert ClaimedOwner([], "s", "Bob", fact.eqTime) == None;
  }

  /** The ids of the two encounters. */
  function Orc(): EncounterId { MintId(ANN, 100, "orc", Bob) }
  function Troll(): EncounterId { MintId(ANN, 200, "troll", Bob) }

  lemma DifferentIds()
    ensures Orc() != Troll()
    ensures forall x: LogSource, t: EqSecond, g: string | x.server == "s" :: MintId(x, t, g, Bob) == MintId(ANN, t, g, Bob)
  {
    hide Lower;
    Names();
    assert Decimal(100) == "100" && Decimal(200) == "200";
    assert Orc()[2] == '1' && Troll()[2] == '2';
  }

  // ----- time in which nothing is due -----

  predicate Restful(sources: map<SourceId, SourceState>, e: Encounter, now: U64, policy: Policy) {
    match e.phase
    case Active => SatSub(now, e.lastSustainReceipt) < policy.inactivityMs
    case Ending(_, enteredAt, _, _) => !AllClosed(sources, e.phase) && SatSub(now, enteredAt) < policy.endingGraceMs
    case Held(_, until) => now < until
  }

  /** No source waits at the end of its file. */
  predicate NoEof(s: Engine) { forall x | x in s.sources :: s.sources[x].eofPasses < 2 }

  lemma NoEofCloses(s: Engine, now: U64)
    requires NoEof(s)
    ensures ClosedSources(s, now) == s.sources
  {}

  lemma NothingDue(s: Engine, now: U64, publish: Publisher)
    requires NoEof(s) && forall id | id in s.encounters :: Restful(s.sources, s.encounters[id], now, s.policy)
    ensures AdvanceTime(s, now, publish) == s
  {
    hide ClosedSources, Finalize;
    NoEofCloses(s, now);
    var ev := EvidenceOf(s).(sources := s.sources);
    forall id | id in s.encounters
      ensures AdvanceEncounter(ev, s.encounters[id], now, publish) == s.encounters[id] && !Expired(s.encounters[id], now) {
      assert Restful(s.sources, s.encounters[id], now, s.policy);
    }
    assert Advanced(s, now, publish) == s.encounters;
    CombatDeadlines.QuietAdvance(s, now, publish);
  }

  // ----- a hit arrives -----

  function OneHit(source: LogSource, sequence: U64, t: EqSecond, hit: FactEvent): Record {
    Record(RecordId(source.id, 0, sequence), source, Some(t), [Combat(hit)])
  }

  predicate IsOneHit(r: Record) {
    r.id.source == r.source.id && r.id.generation == 0 && r.eqTime.Some? && |r.events| == 1 && r.events[0].Combat?
    && r.events[0].fact.Damage?
  }

  function FactOf(r: Record, at: U64): LedgerFact
    requires IsOneHit(r)
  { LedgerFact(r.id, r.source, r.eqTime.value, at, r.events[0].fact) }

  /** A source never seen before. */
  function Newcomer(source: LogSource, at: U64): SourceState {
    SourceState(source, 0, true, at, 0, None, None, None, at, None, None, None, 0, None)
  }

  /** The engine about to process the hit: clock moved, source known, record admitted, fact
      in the ledger. */
  function Arrival(s: Engine, at: U64, r: Record): Engine
    requires IsOneHit(r)
  {
    var known := r.source.id in s.sources;
    var st := if known then s.sources[r.source.id] else Newcomer(r.source, at);
    s.(now := Max(s.now, at), sources := s.sources[r.source.id := Progress(st, r, at)],
       verified := if known then s.verified else s.verified + {Personal(r.source)},
       encounters := if known then s.encounters else map e | e in s.encounters :: JoinManaged(s.encounters[e], r.source),
       accepted := s.accepted + {r.id}, acceptedOrder := s.acceptedOrder + [r.id],
       occurrences := CountOccurrence(s, r.id, r.eqTime.value, r.events[0].fact).occurrences,
       ledger := s.ledger + [FactOf(r, at)])
  }

  /** The engine takes the record without a gap and without withdrawing anything. */
  predicate Welcome(s: Engine, r: Record)
    requires IsOneHit(r)
  {
    s.policy == POLICY && r.id !in s.accepted && |s.acceptedOrder| < 100 && |s.ledger| < 100
    && (r.source.id in s.sources ==>
          var st := s.sources[r.source.id];
          st.generation == 0 && (st.lastSequence.Some? ==> st.lastSequence.value < r.id.sequence)
          && (st.observed.Some? ==> st.observed.value <= r.eqTime.value) && st.closedThrough.None? && st.historyFloor.None?)
  }

  /** The engine that knows the record's source. */
  ghost function Knowing(s: Engine, r: Record, at: U64): Engine {
    if r.source.id in s.sources then s else RegisterSource(s, r.source, r.id.generation, at)
  }

  lemma KnowingIs(s: Engine, r: Record, at: U64)
    requires IsOneHit(r)
    ensures var k := Knowing(s, r, at); var known := r.source.id in s.sources;
            k == s.(sources := s.sources[r.source.id := if known then s.sources[r.source.id] else Newcomer(r.source, at)],
                    verified := if known then s.verified else s.verified + {Personal(r.source)},
                    encounters := if known then s.encounters else map e | e in s.encounters :: JoinManaged(s.encounters[e], r.source))
  {
    hide JoinManaged, Personal;
    if r.source.id in s.sources { assert s.sources[r.source.id := s.sources[r.source.id]] == s.sources; }
  }

  /** Registering, admitting and appending add up to the arrival. */
  lemma ArrivalIs(s: Engine, at: U64, r: Record)
    requires IsOneHit(r)
    ensures var k := Knowing(Clocked(s, at), r, at); var t, hit := r.eqTime.value, r.events[0].fact;
            r.source.id in k.sources
            && Append(CountOccurrence(Admitted(k, r, at), r.id, t, hit), FactOf(r, at)) == Arrival(s, at, r)
  {
    hide RegisterSource, Progress, JoinManaged, Personal, CountOccurrence, Knowing;
    var c := Clocked(s, at);
    KnowingIs(c, r, at);
    var k := Knowing(c, r, at);
    var a := Admitted(k, r, at);
    SameOccurrences(s, a, r.id, r.eqTime.value, r.events[0].fact);
    assert a.sources == s.sources[r.source.id := Progress(k.sources[r.source.id], r, at)];
  }

  lemma KnowingSmooth(s: Engine, at: U64, r: Record)
    requires IsOneHit(r) && Welcome(s, r)
    ensures Smooth(Knowing(Clocked(s, at), r, at), r)
  {
    hide RegisterSource, Progress, JoinManaged, Personal, CountOccurrence, Knowing;
    KnowingIs(Clocked(s, at), r, at);
    assert r.events[1..] == [];
    assert FactCount(r.events) == 1;
  }

  lemma HitArrives(s: Engine, at: U64, r: Record)
    requires IsOneHit(r) && Welcome(s, r)
    ensures Changed(s, Apply(at, NewRecord(r))) == ProcessDamage(Arrival(s, at, r), |s.ledger|)
  {
    hide ProcessDamage, Prepare, RegisterSource, Smooth, Admitted, Arrival, CountOccurrence;
    var c := Clocked(s, at);
    KnowingSmooth(s, at, r);
    ArrivalIs(s, at, r);
    ArrivalLedger(s, at, r);
    if r.source.id !in s.sources { NewcomerPrepares(c, r, at); }
    var k := Knowing(c, r, at);
    KnowingPolicy(c, r, at);
    SmoothPrepares(k, r, at);
    var a := Admitted(k, r, at);
    var t, hit := r.eqTime.value, r.events[0].fact;
    assert ApplyEvents(a, r, t, at, 0) == a;
    assert ApplyEvents(a, r, t, at, 1) == ApplyEvent(a, r, t, at, Combat(hit));
    FirstGenerationAppends(a, r, t, at, hit);
  }

  lemma ArrivalLedger(s: Engine, at: U64, r: Record)
    requires IsOneHit(r)
    ensures Arrival(s, at, r).ledger == s.ledger + [FactOf(r, at)]
  {}

  lemma KnowingPolicy(s: Engine, r: Record, at: U64)
    ensures Knowing(s, r, at).policy == s.policy
  {}

  lemma SameOccurrences(s: Engine, a: Engine, id: RecordId, t: EqSecond, hit: FactEvent)
    requires a.occurrences == s.occurrences && a.policy == s.policy
    ensures CountOccurrence(a, id, t, hit) == a.(occurrences := CountOccurrence(s, id, t, hit).occurrences)
  {}

  // ----- what is known of the engine along the way -----

  const ANN_ORC := OneHit(ANN, 1, 100, BobHits("orc"))
  const BOB_ORC := OneHit(BOB, 1, 100, YouHit("orc"))
  const CID_TROLL := OneHit(CID, 1, 200, BobHits("troll"))
  const BOB_TROLL := OneHit(BOB, 2, 200, YouHit("troll"))

  /** The clock, who follows which encounter, which fact went where, and the ledger. */
  datatype Scene = Scene(now: U64, active: map<SourceId, EncounterId>, facts: map<nat, EncounterId>, ledger: seq<LedgerFact>)

  ghost predicate Told(s: Engine, t: Scene) {
    s.policy == POLICY && s.now == t.now && Players(s) && s.sourceActive == t.active && s.assignments == t.facts
    && s.ledger == t.ledger && forall x | x in s.sources :: s.sources[x].eofPasses == 0
  }

  /** Which sources have been heard, none of them having closed a second. */
  ghost predicate Heard(s: Engine, ids: seq<RecordId>) {
    (forall x :: x in s.sources <==> x == "b" || exists i :: 0 <= i < |ids| && ids[i].source == x)
    && (forall x | x in s.sources :: s.sources[x].generation == 0 && s.sources[x].closedThrough.None? && s.sources[x].historyFloor.None?)
    && (forall id :: id in s.accepted <==> id in ids) && |s.acceptedOrder| == |ids| < 50 && |s.ledger| < 50
    && ((forall i | 0 <= i < |ids| :: ids[i].source != "b") ==> s.sources["b"].lastSequence.None? && s.sources["b"].observed.None?)
    && (BOB_ORC.id in ids ==> s.sources["b"].lastSequence == Some(1) && s.sources["b"].observed.Some? && s.sources["b"].observed.value == 100)
  }

  lemma ToldArrives(s: Engine, at: U64, r: Record, t: Scene)
    requires Told(s, t) && IsOneHit(r) && r.source in {ANN, BOB, CID}
    ensures Told(Arrival(s, at, r), t.(now := Max(t.now, at), ledger := t.ledger + [FactOf(r, at)]))
  {
    Names();
    hide Lower;
    var a := Arrival(s, at, r);
    assert Personal(r.source) in {Participant("s", "ann"), Bob, Participant("s", "cid")};
    forall x | x in a.sources ensures a.sources[x].eofPasses == 0 {}
  }

  lemma HeardArrives(s: Engine, at: U64, r: Record, ids: seq<RecordId>)
    requires Heard(s, ids) && IsOneHit(r) && |ids| < 40 && |s.ledger| < 40
    requires forall i | 0 <= i < |ids| :: ids[i].source != r.source.id
    requires if r.source.id == "b" then r.id == BOB_ORC.id && r.eqTime == Some(100) else r.source.id !in s.sources
    ensures Heard(Arrival(s, at, r), ids + [r.id])
  {
    var a, more := Arrival(s, at, r), ids + [r.id];
    assert more[|ids|] == r.id && forall i | 0 <= i < |ids| :: more[i] == ids[i];
    forall x ensures x in a.sources <==> x == "b" || exists i :: 0 <= i < |more| && more[i].source == x {
      if x in s.sources && x != "b" {
        var i :| 0 <= i < |ids| && ids[i].source == x;
        assert more[i].source == x;
      }
    }
  }

  lemma HeardWelcomes(s: Engine, r: Record, ids: seq<RecordId>)
    requires Heard(s, ids) && IsOneHit(r) && s.policy == POLICY
    requires forall i | 0 <= i < |ids| :: ids[i].source != r.source.id
    requires r.source.id == "b" || r.source.id !in s.sources
    ensures Welcome(s, r)
  {
    assert forall i | 0 <= i < |ids| :: ids[i] != r.id;
  }

  // ----- the encounters -----

  /** An encounter of this story: opened by Bob's hit on the target at second t. */
  predicate Is(e: Encounter, phase: Phase, members: set<SourceId>, facts: seq<nat>, sustained: U64, target: string, t: EqSecond) {
    e.phase == phase && e.server == "s" && e.sources == members && e.facts == facts && e.lastSustainReceipt == sustained
    && e.lastSustainEq == t && e.endEq == t && e.startEq == t && e.fingerprints == {Print(target, t)} && target in e.targets
  }

  lemma FreshIs(s: Engine, id: EncounterId, index: nat, target: string)
    requires index < |s.ledger| && s.ledger[index].source.server == "s"
    ensures var fact := s.ledger[index];
            Is(WithHit(s, Fresh(s, id, fact), index, BobReading(target, fact.eqTime)), Active, {fact.source.id}, [index], fact.receipt, target, fact.eqTime)
  { hide ManagedIdentities; }

  lemma JoinedIs(s: Engine, e: Encounter, index: nat, phase: Phase, members: set<SourceId>, facts: seq<nat>, sustained: U64, target: string, t: EqSecond)
    requires index < |s.ledger| && s.ledger[index].eqTime == t && s.ledger[index].receipt >= sustained && Is(e, phase, members, facts, sustained, target, t)
    ensures Is(WithHit(s, e, index, BobReading(target, t)), phase, members + {s.ledger[index].source.id}, facts + [index], s.ledger[index].receipt, target, t)
    ensures WithHit(s, e, index, BobReading(target, t)).frozen == e.frozen
  {}

  lemma ManagedIs(e: Encounter, source: LogSource)
    ensures JoinManaged(e, source) == e.(managed := JoinManaged(e, source).managed)
    ensures e.phase.Held? ==> JoinManaged(e, source) == e
  { hide SameServer; }

  // ----- the steps -----

  /** The encounter has no claim on the record's hit: held without the source, or live,
      rested and without the hit, the source being known already. */
  predicate Aside(s: Engine, e: Encounter, at: U64, r: Record, fp: Fingerprint) {
    if e.phase.Held? then r.source.id !in e.sources && at < e.phase.until
    else e.phase.Active? && r.source.id in s.sources && fp !in e.fingerprints && SatSub(at, e.lastSustainReceipt) < 30000
  }

  /** A hit of a source without an encounter: it goes to the encounter of its minted id. */
  lemma FreeHit(s: Engine, at: U64, r: Record, target: string, id: EncounterId, t: Scene)
    requires IsOneHit(r) && Welcome(s, r) && Told(s, t) && r.source in {ANN, BOB, CID} && r.source.id !in t.active
    requires BobFact(FactOf(r, at), target) && id == MintId(ANN, r.eqTime.value, target, Bob)
    requires |s.encounters| < 16 && forall i | 0 <= i < |t.ledger| :: i in t.facts || t.ledger[i].source.id != r.source.id
    requires forall x | x in s.encounters :: Aside(s, s.encounters[x], at, r, Print(target, r.eqTime.value))
    ensures var a := Arrival(s, at, r); var n := |s.ledger|;
            a.encounters == s.encounters
            && Changed(s, Apply(at, NewRecord(r)))
               == HitJoined(a, id, if id in s.encounters then s.encounters[id] else Fresh(a, id, a.ledger[n]), n, BobReading(target, r.eqTime.value))
  {
    hide ProcessDamage, Read, MintId, Players, Fresh, BobFact, HitJoined, Correlated, LateAfterClosure, Changed, Welcome;
    var a, n := Arrival(s, at, r), |s.ledger|;
    HitArrives(s, at, r);
    ToldArrives(s, at, r, t);
    ArrivalBook(s, at, r, Print(target, r.eqTime.value));
    BobIsRead(a, a.ledger[n], target);
    DifferentIds();
    NoClaim(s, a, at, r, Print(target, r.eqTime.value));
    UnattachedHit(a, n, id);
  }

  lemma ArrivalBook(s: Engine, at: U64, r: Record, fp: Fingerprint)
    requires IsOneHit(r) && forall x | x in s.encounters :: Aside(s, s.encounters[x], at, r, fp)
    ensures Arrival(s, at, r).encounters == s.encounters
  {
    hide Progress, Personal;
    forall x | x in s.encounters && r.source.id !in s.sources ensures JoinManaged(s.encounters[x], r.source) == s.encounters[x] {
      ManagedIs(s.encounters[x], r.source);
    }
  }

  lemma NoClaim(s: Engine, a: Engine, at: U64, r: Record, fp: Fingerprint)
    requires IsOneHit(r) && a.encounters == s.encounters && forall x | x in s.encounters :: Aside(s, s.encounters[x], at, r, fp)
    ensures forall server :: Correlated(a, server, fp) == {}
    ensures !LateAfterClosure(a, FactOf(r, at))
  { hide SameServer; }

  /** A record that the step lemma below applies to. */
  ghost predicate Free(s: Engine, at: U64, r: Record, target: string, t: Scene, ids: seq<RecordId>) {
    IsOneHit(r) && Told(s, t) && Heard(s, ids) && |ids| < 40 && |s.ledger| < 40 && t.now <= at
    && r.source in {ANN, BOB, CID} && r.source.id !in t.active
    && (if r.source.id == "b" then r.id == BOB_ORC.id && r.eqTime == Some(100) else r.source.id !in s.sources)
    && (forall i | 0 <= i < |ids| :: ids[i].source != r.source.id) && BobFact(FactOf(r, at), target)
    && |s.encounters| < 16 && (forall i | 0 <= i < |t.ledger| :: i in t.facts || t.ledger[i].source.id != r.source.id)
    && forall x | x in s.encounters :: Aside(s, s.encounters[x], at, r, Print(target, r.eqTime.value))
  }

  /** The encounter a free hit goes to, before the hit. */
  function Home(s: Engine, at: U64, r: Record, id: EncounterId): Encounter
    requires IsOneHit(r)
  { if id in s.encounters then s.encounters[id] else Fresh(Arrival(s, at, r), id, FactOf(r, at)) }

  lemma JoinedTold(a: Engine, id: EncounterId, e: Encounter, index: nat, v: Reading, t: Scene, ids: seq<RecordId>)
    requires index < |a.ledger| && Told(a, t) && Heard(a, ids)
    ensures var j := HitJoined(a, id, e, index, v);
            Told(j, t.(active := t.active[a.ledger[index].source.id := id], facts := t.facts[index := id])) && Heard(j, ids)
  { hide Absorb, NewMember; }

  lemma JoinedRests(s: Engine, at: U64, r: Record, id: EncounterId, v: Reading)
    requires IsOneHit(r) && Arrival(s, at, r).encounters == s.encounters && s.policy == POLICY
    requires forall x | x in s.encounters :: Aside(s, s.encounters[x], at, r, v.fingerprint)
    ensures var j := HitJoined(Arrival(s, at, r), id, Home(s, at, r, id), |s.ledger|, v);
            forall x | x in j.encounters :: Restful(j.sources, j.encounters[x], at, j.policy)
  {
    hide Absorb, NewMember;
    var a := Arrival(s, at, r);
    HitPhase(a, Home(s, at, r, id), |s.ledger|, v);
    HitSustains(a, Home(s, at, r, id), |s.ledger|, v);
  }

  lemma HitSustains(s: Engine, e: Encounter, index: nat, v: Reading)
    requires index < |s.ledger|
    ensures WithHit(s, e, index, v).lastSustainReceipt >= s.ledger[index].receipt
  {}

  /** The free hit and the quiet time after it. */
  lemma FreeHitStep(s: Engine, at: U64, r: Record, target: string, id: EncounterId, t: Scene, ids: seq<RecordId>, publish: Publisher)
    requires Free(s, at, r, target, t, ids) && id == MintId(ANN, r.eqTime.value, target, Bob)
    ensures var n := |s.ledger|; var s' := StepOnce(s, Apply(at, NewRecord(r)), publish); var a := Arrival(s, at, r);
            s' == HitJoined(a, id, Home(s, at, r, id), n, BobReading(target, r.eqTime.value)) && a.encounters == s.encounters
            && Told(s', Scene(at, t.active[r.source.id := id], t.facts[n := id], t.ledger + [FactOf(r, at)])) && Heard(s', ids + [r.id])
  {
    hide Read, MintId, Players, Fresh, BobFact, Welcome, Restful, HitJoined, NoEof;
    var a, n, v := Arrival(s, at, r), |s.ledger|, BobReading(target, r.eqTime.value);
    HeardWelcomes(s, r, ids);
    FreeHit(s, at, r, target, id, t);
    ToldArrives(s, at, r, t);
    HeardArrives(s, at, r, ids);
    JoinedTold(a, id, Home(s, at, r, id), n, v, t.(now := at, ledger := t.ledger + [FactOf(r, at)]), ids + [r.id]);
    JoinedRests(s, at, r, id, v);
    var j := HitJoined(a, id, Home(s, at, r, id), n, v);
    ToldHasNoEof(j, Scene(at, t.active[r.source.id := id], t.facts[n := id], t.ledger + [FactOf(r, at)]));
    hide Arrival, Told, Heard;
    NothingDue(j, at, publish);
  }

  lemma ToldHasNoEof(s: Engine, t: Scene)
    requires Told(s, t)
    ensures NoEof(s)
  {}

  lemma HitPhase(s: Engine, e: Encounter, index: nat, v: Reading)
    requires index < |s.ledger|
    ensures WithHit(s, e, index, v).phase == e.phase
  {}

  // ----- the common beginning: Ann's encounter with the orc, held at last -----

  const ANN_FACT := LedgerFact(ANN_ORC.id, ANN, 100, 0, BobHits("orc"))
  const BOB_FACT := LedgerFact(BOB_ORC.id, BOB, 100, 33000, YouHit("orc"))
  const CID_FACT := LedgerFact(CID_TROLL.id, CID, 200, 34000, BobHits("troll"))
  const LATE_CID_FACT := LedgerFact(CID_TROLL.id, CID, 200, 39000, BobHits("troll"))

  function Opening(): seq<Step> {
    [Apply(0, Registered(BOB, 0)), Apply(0, NewRecord(ANN_ORC)), Tick(30000), Tick(32000)]
  }

  lemma RunMore(steps: seq<Step>, step: Step, publish: Publisher)
    ensures Run(NewEngine(POLICY), steps + [step], publish) == StepOnce(Run(NewEngine(POLICY), steps, publish), step, publish)
  {
    hide StepOnce;
    assert (steps + [step])[..|steps|] == steps;
  }

  /** The engine's part of the story: what is told and what has been heard. */
  ghost predicate At(s: Engine, t: Scene, ids: seq<RecordId>) { Told(s, t) && Heard(s, ids) }

  /** Only this encounter is in the book. */
  ghost predicate Alone(s: Engine, id: EncounterId, phase: Phase, members: set<SourceId>, facts: seq<nat>, sustained: U64, target: string, t: EqSecond) {
    s.encounters.Keys == {id} && Is(s.encounters[id], phase, members, facts, sustained, target, t)
  }

  /** Bob's own log is registered, so Bob is a verified player. */
  ghost predicate Registered0(s: Engine) { At(s, Scene(0, map[], map[], []), []) && s.encounters == map[] }

  lemma Registers(publish: Publisher)
    ensures Registered0(StepOnce(NewEngine(POLICY), Apply(0, Registered(BOB, 0)), publish))
  {
    var c := Changed(NewEngine(POLICY), Apply(0, Registered(BOB, 0)));
    RegistersBob();
    NothingDue(c, 0, publish);
  }

  lemma RegistersBob()
    ensures Changed(NewEngine(POLICY), Apply(0, Registered(BOB, 0)))
            == NewEngine(POLICY).(sources := map["b" := Newcomer(BOB, 0)], verified := {Bob}, encounters := map[])
  {
    Names();
    hide Lower;
    assert Personal(BOB) == Bob;
    var c := Changed(NewEngine(POLICY), Apply(0, Registered(BOB, 0)));
    assert c.encounters == map[];
  }

  ghost predicate AnnActive(s: Engine) {
    At(s, Scene(0, map["a" := Orc()], map[0 := Orc()], [ANN_FACT]), [ANN_ORC.id]) && Alone(s, Orc(), Active, {"a"}, [0], 0, "orc", 100)
  }

  lemma AnnIsFree(s: Engine)
    requires Registered0(s)
    ensures Free(s, 0, ANN_ORC, "orc", Scene(0, map[], map[], []), [])
  { hide Players; }

  lemma AnnOpens(s: Engine, publish: Publisher)
    requires Registered0(s)
    ensures AnnActive(StepOnce(s, Apply(0, NewRecord(ANN_ORC)), publish))
  {
    hide MintId, Fresh, StepOnce, Free, Told, Heard, Arrival;
    AnnIsFree(s);
    FreeHitStep(s, 0, ANN_ORC, "orc", Orc(), Scene(0, map[], map[], []), [], publish);
    var a := Arrival(s, 0, ANN_ORC);
    LedgerTold(s, Scene(0, map[], map[], []));
    ArrivalLedger(s, 0, ANN_ORC);
    FreshIs(a, Orc(), 0, "orc");
    assert [] + [FactOf(ANN_ORC, 0)] == [ANN_FACT] && [] + [ANN_ORC.id] == [ANN_ORC.id];
  }

  lemma LedgerTold(s: Engine, t: Scene)
    requires Told(s, t)
    ensures s.ledger == t.ledger && s.now == t.now && s.sourceActive == t.active && s.assignments == t.facts
    ensures s.policy == POLICY && NoEof(s) && Players(s)
  {}

  /** Time moves one encounter on, with the rest of the engine as it is. */
  lemma LoneTick(s: Engine, now: U64, publish: Publisher, id: EncounterId)
    requires 0 < s.policy.maxRecordIds && s.now <= now && NoEof(s) && s.encounters.Keys == {id}
    requires !Expired(AdvanceEncounter(EvidenceOf(s.(now := now)), s.encounters[id], now, publish), now)
    ensures var e := AdvanceEncounter(EvidenceOf(s.(now := now)), s.encounters[id], now, publish);
            StepOnce(s, Tick(now), publish)
            == s.(now := now, encounters := map[id := e],
                  sourceActive := if NewlyHeld(s.encounters[id], e) then Unfollowed(s.sourceActive, id) else s.sourceActive)
  {
    hide AdvanceEncounter, ClosedSources, NewlyHeld, Expired, Unfollowed, Advanced, AdvanceTime;
    var c := s.(now := now);
    NoEofCloses(c, now);
    CombatDeadlines.TickIsAdvance(s, now, publish);
    LoneAdvanced(c, now, publish, id);
    LoneTime(c, now, publish, id, AdvanceEncounter(EvidenceOf(c), s.encounters[id], now, publish));
  }

  lemma LoneAdvanced(s: Engine, now: U64, publish: Publisher, id: EncounterId)
    requires s.encounters.Keys == {id} && ClosedSources(s, now) == s.sources
    ensures Advanced(s, now, publish) == map[id := AdvanceEncounter(EvidenceOf(s), s.encounters[id], now, publish)]
  { hide AdvanceEncounter, ClosedSources; }

  lemma LoneTime(s: Engine, now: U64, publish: Publisher, id: EncounterId, e: Encounter)
    requires s.encounters.Keys == {id} && ClosedSources(s, now) == s.sources && Advanced(s, now, publish) == map[id := e] && !Expired(e, now)
    ensures AdvanceTime(s, now, publish)
            == s.(encounters := map[id := e],
                  sourceActive := if NewlyHeld(s.encounters[id], e) then Unfollowed(s.sourceActive, id) else s.sourceActive)
  {
    hide Advanced, ClosedSources, NewlyHeld, Expired;
    var r := AdvanceTime(s, now, publish);
    assert r.encounters == map[id := e];
    assert r.sourceActive == if NewlyHeld(s.encounters[id], e) then Unfollowed(s.sourceActive, id) else s.sourceActive;
  }

  function Unfollowed(active: map<SourceId, EncounterId>, id: EncounterId): map<SourceId, EncounterId> {
    map x | x in active && active[x] != id :: active[x]
  }

  ghost predicate AnnEnding(s: Engine) {
    At(s, Scene(30000, map["a" := Orc()], map[0 := Orc()], [ANN_FACT]), [ANN_ORC.id])
    && Alone(s, Orc(), Ending(Inactivity, 30000, 100, {"a"}), {"a"}, [0], 0, "orc", 100)
  }

  lemma AnnEnds(s: Engine, publish: Publisher)
    requires AnnActive(s)
    ensures AnnEnding(StepOnce(s, Tick(30000), publish))
  {
    hide MintId, StepOnce, Finalize;
    var e := s.encounters[Orc()];
    assert !ClosedTo(s.sources, "a", 100);
    assert AdvanceEncounter(EvidenceOf(s.(now := 30000)), e, 30000, publish) == e.(phase := Ending(Inactivity, 30000, 100, {"a"}));
    LoneTick(s, 30000, publish, Orc());
  }

  /** The hold that starts at 32000 lasts until 40000. */
  const HELD := Held(Inactivity, 40000)

  /** Where every story starts: Ann's encounter is held until 40000 and nobody follows it. */
  ghost predicate Opened(s: Engine) {
    At(s, Scene(32000, map[], map[0 := Orc()], [ANN_FACT]), [ANN_ORC.id]) && Alone(s, Orc(), HELD, {"a"}, [0], 0, "orc", 100)
  }

  lemma AnnHolds(s: Engine, publish: Publisher)
    requires AnnEnding(s)
    ensures var s' := StepOnce(s, Tick(32000), publish);
            Opened(s') && s'.encounters[Orc()] == Finalize(EvidenceOf(s.(now := 32000)), s.encounters[Orc()], 32000, publish)
  {
    hide MintId, StepOnce, Finalize;
    var e, ev := s.encounters[Orc()], EvidenceOf(s.(now := 32000));
    var h := Finalize(ev, e, 32000, publish);
    assert AdvanceEncounter(ev, e, 32000, publish) == h;
    FinalizeIs(ev, e, 32000, publish);
    LoneTick(s, 32000, publish, Orc());
    assert Unfollowed(s.sourceActive, Orc()) == map[];
  }

  lemma FinalizeIs(ev: Evidence, e: Encounter, now: U64, publish: Publisher)
    requires e.phase.Ending?
    ensures var h := Finalize(ev, e, now, publish);
            h == e.(phase := Held(e.phase.reason, SatAdd(now, ev.policy.heldMs)), partial := h.partial, frozen := h.frozen)
  {}

  lemma OpeningOpens(publish: Publisher)
    ensures Opened(Run(NewEngine(POLICY), Opening(), publish))
    ensures var s := Run(NewEngine(POLICY), Opening()[..3], publish);
            AnnEnding(s) && Run(NewEngine(POLICY), Opening(), publish) == StepOnce(s, Tick(32000), publish)
  {
    hide StepOnce, MintId, At, Alone, Registered0, AnnActive, AnnEnding, Opened;
    var o := Opening();
    assert o[..0] == [] && o[..1] == [] + [o[0]] && o[..2] == o[..1] + [o[1]] && o[..3] == o[..2] + [o[2]] && o == o[..3] + [o[3]];
    RunMore([], o[0], publish); RunMore(o[..1], o[1], publish); RunMore(o[..2], o[2], publish); RunMore(o[..3], o[3], publish);
    Registers(publish);
    AnnOpens(Run(NewEngine(POLICY), o[..1], publish), publish);
    AnnEnds(Run(NewEngine(POLICY), o[..2], publish), publish);
    AnnHolds(Run(NewEngine(POLICY), o[..3], publish), publish);
  }

  // ----- a held encounter changes -----

  function SceneReused(): Scene { Scene(33000, map["b" := Orc()], map[0 := Orc(), 1 := Orc()], [ANN_FACT, BOB_FACT]) }

  ghost predicate Reused(s: Engine) {
    At(s, SceneReused(), [ANN_ORC.id, BOB_ORC.id]) && Alone(s, Orc(), HELD, {"a", "b"}, [0, 1], 33000, "orc", 100)
  }

  lemma BobIsFree(s: Engine)
    requires Opened(s)
    ensures Free(s, 33000, BOB_ORC, "orc", Scene(32000, map[], map[0 := Orc()], [ANN_FACT]), [ANN_ORC.id])
  { hide Players, MintId; }

  lemma BobReuses(s: Engine, publish: Publisher)
    requires Opened(s)
    ensures var s' := StepOnce(s, Apply(33000, NewRecord(BOB_ORC)), publish);
            Reused(s') && s'.encounters[Orc()].frozen == s.encounters[Orc()].frozen
  {
    hide MintId, Fresh, StepOnce, Free, Told, Heard, Arrival;
    var t := Scene(32000, map[], map[0 := Orc()], [ANN_FACT]);
    BobIsFree(s);
    FreeHitStep(s, 33000, BOB_ORC, "orc", Orc(), t, [ANN_ORC.id], publish);
    LedgerTold(s, t);
    ArrivalLedger(s, 33000, BOB_ORC);
    var a := Arrival(s, 33000, BOB_ORC);
    JoinedIs(a, s.encounters[Orc()], 1, HELD, {"a"}, [0], 0, "orc", 100);
    assert [ANN_ORC.id] + [BOB_ORC.id] == [ANN_ORC.id, BOB_ORC.id] && [ANN_FACT] + [FactOf(BOB_ORC, 33000)] == [ANN_FACT, BOB_FACT];
    assert {"a"} + {"b"} == {"a", "b"} && [0] + [1] == [0, 1];
  }

  /** From the start of the engine: Bob's own report of the hit that opened Ann's encounter
      changes the encounter while it is held, well before its time is up. */
  lemma HeldChangesInARun(publish: Publisher)
    ensures var s := NewEngine(POLICY); var steps := Opening() + [Apply(33000, NewRecord(BOB_ORC))];
            var held, later := Run(s, steps[..4], publish), Run(s, steps, publish);
            Orc() in held.encounters && held.encounters[Orc()].phase == HELD && later.now < 40000
            && Orc() in later.encounters && later.encounters[Orc()] != held.encounters[Orc()] && !Live(later)
  {
    hide StepOnce, MintId, Told, Heard;
    var steps := Opening() + [Apply(33000, NewRecord(BOB_ORC))];
    assert steps[..4] == Opening();
    OpeningOpens(publish);
    RunMore(Opening(), steps[4], publish);
    var held := Run(NewEngine(POLICY), Opening(), publish);
    BobReuses(held, publish);
    var later := Run(NewEngine(POLICY), steps, publish);
    LedgerTold(later, SceneReused());
    assert later.sourceActive["b"] == Orc() && !LiveIn(later.encounters, Orc());
  }

  // ----- a finalized snapshot is lost -----

  /** Both encounters are in the book. */
  ghost predicate Both(s: Engine, phase: Phase, members: set<SourceId>, facts: seq<nat>, sustained: U64, trolls: seq<nat>, at: U64) {
    s.encounters.Keys == {Orc(), Troll()} && Orc() != Troll()
    && Is(s.encounters[Orc()], phase, members, facts, sustained, "orc", 100)
    && Is(s.encounters[Troll()], Active, {"c"}, trolls, at, "troll", 200)
  }

  function SceneTroll(): Scene {
    Scene(34000, map["b" := Orc(), "c" := Troll()], map[0 := Orc(), 1 := Orc(), 2 := Troll()], [ANN_FACT, BOB_FACT, CID_FACT])
  }

  ghost predicate TrollOpen(s: Engine) {
    At(s, SceneTroll(), [ANN_ORC.id, BOB_ORC.id, CID_TROLL.id]) && Both(s, HELD, {"a", "b"}, [0, 1], 33000, [2], 34000)
  }

  lemma CidIsFree(s: Engine)
    requires Reused(s)
    ensures Free(s, 34000, CID_TROLL, "troll", SceneReused(), [ANN_ORC.id, BOB_ORC.id])
  { hide Players, MintId; }

  lemma CidOpens(s: Engine, publish: Publisher)
    requires Reused(s)
    ensures var s' := StepOnce(s, Apply(34000, NewRecord(CID_TROLL)), publish);
            TrollOpen(s') && s'.encounters[Orc()] == s.encounters[Orc()]
  {
    hide MintId, Fresh, StepOnce, Free, Told, Heard, Arrival;
    DifferentIds();
    CidIsFree(s);
    FreeHitStep(s, 34000, CID_TROLL, "troll", Troll(), SceneReused(), [ANN_ORC.id, BOB_ORC.id], publish);
    LedgerTold(s, SceneReused());
    ArrivalLedger(s, 34000, CID_TROLL);
    FreshIs(Arrival(s, 34000, CID_TROLL), Troll(), 2, "troll");
    assert [ANN_ORC.id, BOB_ORC.id] + [CID_TROLL.id] == [ANN_ORC.id, BOB_ORC.id, CID_TROLL.id];
    assert [ANN_FACT, BOB_FACT] + [FactOf(CID_TROLL, 34000)] == [ANN_FACT, BOB_FACT, CID_FACT];
    assert SceneReused().active["c" := Troll()] == SceneTroll().active && SceneReused().facts[2 := Troll()] == SceneTroll().facts;
  }

  lemma BobIsWelcome(s: Engine, t: Scene, ids: seq<RecordId>)
    requires At(s, t, ids) && BOB_ORC.id in ids && BOB_TROLL.id !in ids
    ensures Welcome(s, BOB_TROLL) && "b" in s.sources
  { hide Players; }

  /** Bob's hit on the troll is in the ledger while Bob follows the held encounter. */
  ghost predicate MergeReady(a: Engine) {
    |a.ledger| == 4 && a.ledger[3] == FactOf(BOB_TROLL, 35000) && a.policy == POLICY && a.now == 35000 && NoEof(a) && Players(a)
    && "b" in a.sourceActive && a.sourceActive["b"] == Orc() && (forall i | 0 <= i < 3 :: i in a.assignments)
    && Both(a, HELD, {"a", "b"}, [0, 1], 33000, [2], 34000)
  }

  lemma BobArrives(s: Engine)
    requires TrollOpen(s)
    ensures Welcome(s, BOB_TROLL) && |s.ledger| == 3 && s.now == 34000 && s.policy == POLICY
    ensures var a := Arrival(s, 35000, BOB_TROLL); MergeReady(a) && |a.ledger| == 4 && a.ledger[3].event.Damage?
  {
    hide MintId, Players, Heard, Is, Told, Arrival, NoEof, Welcome;
    var a, t := Arrival(s, 35000, BOB_TROLL), SceneTroll();
    BobIsWelcome(s, t, [ANN_ORC.id, BOB_ORC.id, CID_TROLL.id]);
    ToldArrives(s, 35000, BOB_TROLL, t);
    LedgerTold(s, t);
    LedgerTold(a, t.(now := 35000, ledger := t.ledger + [FactOf(BOB_TROLL, 35000)]));
    KnownArrivalBook(s, 35000, BOB_TROLL);
  }

  lemma KnownArrivalBook(s: Engine, at: U64, r: Record)
    requires IsOneHit(r) && r.source.id in s.sources
    ensures Arrival(s, at, r).encounters == s.encounters
  {}

  /** The merge puts the hit into one live encounter, the only one left. */
  lemma BobMerges(s: Engine, publish: Publisher)
    requires TrollOpen(s)
    ensures var s' := StepOnce(s, Apply(35000, NewRecord(BOB_TROLL)), publish);
            Orc() in s'.encounters ==> s'.encounters[Orc()].phase == Active && s'.encounters[Orc()].frozen == None
  {
    hide StepOnce, MintId, TrollOpen, Welcome, Arrival, ProcessDamage, MergeReady, Changed, Restful, NoEof;
    BobArrives(s);
    HitArrives(s, 35000, BOB_TROLL);
    var c := ProcessDamage(Arrival(s, 35000, BOB_TROLL), 3);
    MergedHit(Arrival(s, 35000, BOB_TROLL));
    NothingDue(c, 35000, publish);
    ChangedThenTime(s, Apply(35000, NewRecord(BOB_TROLL)), publish);
  }

  lemma ChangedThenTime(s: Engine, step: Step, publish: Publisher)
    requires 0 < s.policy.maxRecordIds
    ensures StepOnce(s, step, publish) == AdvanceTime(Changed(s, step), Max(s.now, step.at), publish)
  { hide AdvanceTime, Changed; }

  lemma BobReadsTroll(a: Engine)
    requires MergeReady(a)
    ensures Read(a, a.ledger[3]) == BobReading("troll", 200)
  { BobIsRead(a, a.ledger[3], "troll"); }

  lemma JoinLosesSnapshot(a: Encounter, b: Encounter)
    ensures Join(a, b).phase == Active && Join(a, b).frozen == None
  {}

  /** Merging the two encounters leaves one, active and without a snapshot. */
  lemma MergeOfBoth(a: Engine)
    requires a.encounters.Keys == {Orc(), Troll()} && Orc() != Troll()
    ensures var (m, id) := Merge(a, Orc(), Troll());
            id.Some? && m.encounters.Keys == {id.value} && m.encounters[id.value].phase == Active && m.encounters[id.value].frozen == None
            && m.ledger == a.ledger && m.sources == a.sources && m.policy == a.policy && m.assignments.Keys == a.assignments.Keys
  {
    hide Join, MintId;
    JoinLosesSnapshot(a.encounters[Orc()], a.encounters[Troll()]);
    JoinLosesSnapshot(a.encounters[Troll()], a.encounters[Orc()]);
  }

  lemma MergedPlace(a: Engine)
    requires MergeReady(a)
    ensures Place(a, a.ledger[3]) == Merge(a, Orc(), Troll())
  {
    hide MintId, Read, Merge, Players;
    var fact, v := a.ledger[3], BobReading("troll", 200);
    BobReadsTroll(a);
    assert Correlated(a, "s", v.fingerprint) == {Troll()} by { assert SameServer("s", "s"); }
    MergeOfBoth(a);
    var (m, id) := Merge(a, Orc(), Troll());
    assert Choose(a, BOB, v.fingerprint) == (m, id);
  }

  lemma MergedHit(a: Engine)
    requires MergeReady(a)
    ensures var c := ProcessDamage(a, 3);
            NoEof(c) && c.policy == POLICY
            && (forall x | x in c.encounters :: Restful(c.sources, c.encounters[x], 35000, c.policy))
            && (Orc() in c.encounters ==> c.encounters[Orc()].phase == Active && c.encounters[Orc()].frozen == None)
  {
    hide MintId, Read, Settle, Merge, Place, Players, Is;
    var v := BobReading("troll", 200);
    BobReadsTroll(a);
    MergedPlace(a);
    MergeOfBoth(a);
    var (m, id) := Merge(a, Orc(), Troll());
    QualifiedSettles(m, id.value, 3, v);
    HitPhase(m, m.encounters[id.value], 3, v);
    HitSustains(m, m.encounters[id.value], 3, v);
    HitFrozen(m, m.encounters[id.value], 3, v);
  }

  lemma HitFrozen(s: Engine, e: Encounter, index: nat, v: Reading)
    requires index < |s.ledger|
    ensures WithHit(s, e, index, v).frozen == e.frozen
  {}

  // A snapshot was published for Ann's encounter.

  lemma OrcIsCredited(ev: Evidence, e: Encounter)
    requires Is(e, HELD, {"a"}, [0], 0, "orc", 100) && ev.ledger == [ANN_FACT] && ev.ownership == []
    requires Bob in ev.verified && ev.verified <= {Participant("s", "ann"), Bob, Participant("s", "cid")}
    ensures Classify(ev, e, ANN_FACT).Some?
  {
    Names();
    hide Lower, ParticipantFromName, PossiblePlayerName;
    assert ClaimedOwner([], "s", "Bob", 130) == None;
  }

  lemma OrcIsPublished(s: Engine)
    requires AnnEnding(s)
    ensures Finalize(EvidenceOf(s.(now := 32000)), s.encounters[Orc()], 32000, SnapshotOf).frozen.Some?
  {
    hide SnapshotOf, Classify, MintId;
    var ev, e := EvidenceOf(s.(now := 32000)), s.encounters[Orc()];
    var late := if AllClosed(ev.sources, e.phase) then {} else set x | x in e.phase.closure && !ClosedTo(ev.sources, x, e.phase.cutoff);
    var held := e.(partial := e.partial + late, phase := HELD);
    OrcIsCredited(ev, held);
    OneCredit(ev, held);
    PublishesIffEligible(ev, held);
  }

  lemma OneCredit(ev: Evidence, e: Encounter)
    requires ev.ledger == [ANN_FACT] && e.facts == [0] && Classify(ev, e, ANN_FACT).Some?
    ensures InLedger(ev, e.facts) && Credits(ev, e, e.facts) != []
  { hide Classify; }

  /** From the start of the engine, with the snapshots it really publishes: the snapshot of
      Ann's encounter is final and held until 40000, yet at 35000 the encounter is gone or
      open again without it. */
  lemma SnapshotIsLostInARun()
    ensures var s := NewEngine(POLICY);
            var steps := Opening() + [Apply(33000, NewRecord(BOB_ORC)), Apply(34000, NewRecord(CID_TROLL)), Apply(35000, NewRecord(BOB_TROLL))];
            var held, later := Run(s, steps[..4], SnapshotOf), Run(s, steps, SnapshotOf);
            Orc() in held.encounters && held.encounters[Orc()].phase == HELD && held.encounters[Orc()].frozen.Some?
            && (Orc() in later.encounters ==> later.encounters[Orc()].phase == Active && later.encounters[Orc()].frozen == None)
  {
    hide StepOnce, MintId, At, Both, TrollOpen, Reused, AnnEnding, Finalize, Is, SnapshotOf;
    var steps := Opening() + [Apply(33000, NewRecord(BOB_ORC)), Apply(34000, NewRecord(CID_TROLL)), Apply(35000, NewRecord(BOB_TROLL))];
    assert steps[..4] == Opening() && steps[..5] == Opening() + [steps[4]] && steps[..6] == steps[..5] + [steps[5]] && steps == steps[..6] + [steps[6]];
    OpeningOpens(SnapshotOf);
    RunMore(Opening(), steps[4], SnapshotOf); RunMore(steps[..5], steps[5], SnapshotOf); RunMore(steps[..6], steps[6], SnapshotOf);
    var ending, held := Run(NewEngine(POLICY), Opening()[..3], SnapshotOf), Run(NewEngine(POLICY), Opening(), SnapshotOf);
    AnnHolds(ending, SnapshotOf);
    OrcIsPublished(ending);
    HeldPhase(held);
    BobReuses(held, SnapshotOf);
    CidOpens(Run(NewEngine(POLICY), steps[..5], SnapshotOf), SnapshotOf);
    BobMerges(Run(NewEngine(POLICY), steps[..6], SnapshotOf), SnapshotOf);
  }

  lemma HeldPhase(s: Engine)
    requires Opened(s)
    ensures Orc() in s.encounters && s.encounters[Orc()].phase == HELD
  {}

  // ----- an assignment goes stale -----

  function SceneLate(): Scene { Scene(39000, map["c" := Troll()], map[0 := Orc(), 1 := Troll()], [ANN_FACT, LATE_CID_FACT]) }

  ghost predicate LateTroll(s: Engine) {
    At(s, SceneLate(), [ANN_ORC.id, CID_TROLL.id]) && Both(s, HELD, {"a"}, [0], 0, [1], 39000)
  }

  lemma LateCidIsFree(s: Engine)
    requires Opened(s)
    ensures Free(s, 39000, CID_TROLL, "troll", Scene(32000, map[], map[0 := Orc()], [ANN_FACT]), [ANN_ORC.id])
  { hide Players, MintId; }

  lemma CidOpensLate(s: Engine, publish: Publisher)
    requires Opened(s)
    ensures LateTroll(StepOnce(s, Apply(39000, NewRecord(CID_TROLL)), publish))
  {
    hide MintId, Fresh, StepOnce, Free, Told, Heard, Arrival;
    var t := Scene(32000, map[], map[0 := Orc()], [ANN_FACT]);
    DifferentIds();
    LateCidIsFree(s);
    FreeHitStep(s, 39000, CID_TROLL, "troll", Troll(), t, [ANN_ORC.id], publish);
    LedgerTold(s, t);
    ArrivalLedger(s, 39000, CID_TROLL);
    FreshIs(Arrival(s, 39000, CID_TROLL), Troll(), 1, "troll");
    assert [ANN_ORC.id] + [CID_TROLL.id] == [ANN_ORC.id, CID_TROLL.id] && [ANN_FACT] + [FactOf(CID_TROLL, 39000)] == [ANN_FACT, LATE_CID_FACT];
    assert t.active["c" := Troll()] == SceneLate().active && t.facts[1 := Troll()] == SceneLate().facts;
  }

  ghost predicate OrcGone(s: Engine) {
    At(s, SceneLate().(now := 40000), [ANN_ORC.id, CID_TROLL.id]) && Alone(s, Troll(), Active, {"c"}, [1], 39000, "troll", 200)
  }

  predicate Stays(s: Engine, id: EncounterId, now: U64)
    requires id in s.encounters
  { s.encounters[id].phase.Held? || Restful(s.sources, s.encounters[id], now, s.policy) }

  lemma NobodyMoves(s: Engine, now: U64, publish: Publisher)
    requires NoEof(s) && forall id | id in s.encounters :: Stays(s, id, now)
    ensures Advanced(s, now, publish) == s.encounters
  {
    hide ClosedSources, Finalize;
    NoEofCloses(s, now);
    var ev := EvidenceOf(s).(sources := s.sources);
    forall id | id in s.encounters ensures AdvanceEncounter(ev, s.encounters[id], now, publish) == s.encounters[id] {
      assert Stays(s, id, now);
    }
  }

  function Unexpired(book: map<EncounterId, Encounter>, now: U64): map<EncounterId, Encounter> {
    map id | id in book && !Expired(book[id], now) :: book[id]
  }

  /** Only holds end: who follows whom stays, and so do ledger and assignments unless the
      book is now empty. */
  lemma HoldsEnd(s: Engine, now: U64, publish: Publisher)
    requires 0 < s.policy.maxRecordIds && s.now <= now && NoEof(s) && s.encounters != map[] && s.ledger != []
    requires forall id | id in s.encounters :: Stays(s, id, now)
    ensures var kept := Unexpired(s.encounters, now);
            StepOnce(s, Tick(now), publish)
            == s.(now := now, encounters := kept, ledger := if kept == map[] then [] else s.ledger,
                  assignments := if kept == map[] then map[] else s.assignments)
  {
    hide Advanced, ClosedSources, Restful, Expired;
    var c := s.(now := now);
    CombatDeadlines.TickIsAdvance(s, now, publish);
    forall id | id in c.encounters ensures Stays(c, id, now) { assert Stays(s, id, now); }
    NobodyMoves(c, now, publish);
    NoEofCloses(c, now);
    var r := AdvanceTime(c, now, publish);
    assert r.sourceActive == s.sourceActive;
    assert r.encounters == Unexpired(s.encounters, now);
  }

  /** The hold ends; the other encounter keeps the ledger and the assignments. */
  lemma OrcExpires(s: Engine, publish: Publisher)
    requires LateTroll(s)
    ensures OrcGone(StepOnce(s, Tick(40000), publish))
  {
    hide StepOnce, MintId, Told, Heard;
    LedgerTold(s, SceneLate());
    HoldsEnd(s, 40000, publish);
    TrollStays(s);
    var book := Unexpired(s.encounters, 40000);
    assert Troll() in book;
    MoreTime(s, 40000, book, SceneLate(), [ANN_ORC.id, CID_TROLL.id]);
    assert StepOnce(s, Tick(40000), publish) == s.(now := 40000, encounters := book);
  }

  lemma TrollStays(s: Engine)
    requires Both(s, HELD, {"a"}, [0], 0, [1], 39000)
    ensures Unexpired(s.encounters, 40000) == map[Troll() := s.encounters[Troll()]]
  { hide MintId; }

  lemma MoreTime(s: Engine, now: U64, book: map<EncounterId, Encounter>, t: Scene, ids: seq<RecordId>)
    requires At(s, t, ids)
    ensures At(s.(now := now, encounters := book), t.(now := now), ids)
    ensures At(s.(now := now, encounters := book, ledger := [], assignments := map[]), t.(now := now, ledger := [], facts := map[]), ids)
  {}

  lemma LateBobIsFree(s: Engine)
    requires OrcGone(s)
    ensures Free(s, 40001, BOB_ORC, "orc", SceneLate().(now := 40000), [ANN_ORC.id, CID_TROLL.id])
  { hide Players, MintId; }

  /** From the start of the engine: Ann's encounter has gone, its first fact is still
      assigned to it, and Bob's late report opens it anew without that fact. */
  lemma AssignmentGoesStaleInARun(publish: Publisher)
    ensures var steps := Opening() + [Apply(39000, NewRecord(CID_TROLL)), Tick(40000), Apply(40001, NewRecord(BOB_ORC))];
            !Exact(Run(NewEngine(POLICY), steps, publish))
  {
    hide StepOnce, MintId, At, Both, LateTroll, OrcGone, Opened;
    var steps := Opening() + [Apply(39000, NewRecord(CID_TROLL)), Tick(40000), Apply(40001, NewRecord(BOB_ORC))];
    assert steps[..5] == Opening() + [steps[4]] && steps[..6] == steps[..5] + [steps[5]] && steps == steps[..6] + [steps[6]];
    OpeningOpens(publish);
    RunMore(Opening(), steps[4], publish); RunMore(steps[..5], steps[5], publish); RunMore(steps[..6], steps[6], publish);
    CidOpensLate(Run(NewEngine(POLICY), Opening(), publish), publish);
    OrcExpires(Run(NewEngine(POLICY), steps[..5], publish), publish);
    BobReopens(Run(NewEngine(POLICY), steps[..6], publish), publish);
  }

  lemma BobReopens(s: Engine, publish: Publisher)
    requires OrcGone(s)
    ensures !Exact(StepOnce(s, Apply(40001, NewRecord(BOB_ORC)), publish))
  {
    hide MintId, Fresh, StepOnce, Free, Told, Heard, Arrival;
    DifferentIds();
    var t := SceneLate().(now := 40000);
    LateBobIsFree(s);
    FreeHitStep(s, 40001, BOB_ORC, "orc", Orc(), t, [ANN_ORC.id, CID_TROLL.id], publish);
    LedgerTold(s, t);
    ArrivalLedger(s, 40001, BOB_ORC);
    FreshIs(Arrival(s, 40001, BOB_ORC), Orc(), 2, "orc");
    var s' := StepOnce(s, Apply(40001, NewRecord(BOB_ORC)), publish);
    LedgerTold(s', Scene(40001, t.active["b" := Orc()], t.facts[2 := Orc()], t.ledger + [FactOf(BOB_ORC, 40001)]));
    assert s'.assignments[0] == Orc() && s'.encounters[Orc()].facts == [2];
  }

  // ----- a qualified hit is lost -----

  ghost predicate BobFollowsGone(s: Engine) {
    At(s, Scene(41000, map["b" := Orc()], map[], []), [ANN_ORC.id, BOB_ORC.id]) && s.encounters == map[]
  }

  /** The reused encounter expires and takes the ledger along, but Bob still follows it. */
  lemma BookDrains(s: Engine, publish: Publisher)
    requires Reused(s)
    ensures BobFollowsGone(StepOnce(s, Tick(41000), publish))
  {
    hide StepOnce, MintId, Told, Heard;
    LedgerTold(s, SceneReused());
    HoldsEnd(s, 41000, publish);
    assert Unexpired(s.encounters, 41000) == map[];
    MoreTime(s, 41000, map[], SceneReused(), [ANN_ORC.id, BOB_ORC.id]);
  }

  lemma BobHitsNothing(s: Engine, publish: Publisher)
    requires BobFollowsGone(s)
    ensures var s' := StepOnce(s, Apply(42000, NewRecord(BOB_TROLL)), publish);
            |s'.ledger| == 1 && s'.ledger[0] == FactOf(BOB_TROLL, 42000) && Read(s', s'.ledger[0]).startQualified && !Listed(s', 0)
            && 0 in s'.assignments && s'.assignments[0] !in s'.encounters
  {
    hide StepOnce, MintId, Welcome, Read, Settle, Heard, Players;
    var t := Scene(41000, map["b" := Orc()], map[], []);
    var a := Arrival(s, 42000, BOB_TROLL);
    BobIsWelcome(s, t, [ANN_ORC.id, BOB_ORC.id]);
    HitArrives(s, 42000, BOB_TROLL);
    ToldArrives(s, 42000, BOB_TROLL, t);
    KnownArrivalBook(s, 42000, BOB_TROLL);
    LedgerTold(a, t.(now := 42000, ledger := [] + [FactOf(BOB_TROLL, 42000)]));
    GoneSwallows(a);
    var c := ProcessDamage(a, 0);
    hide ProcessDamage, Arrival;
    NothingDue(c, 42000, publish);
    ChangedThenTime(s, Apply(42000, NewRecord(BOB_TROLL)), publish);
  }

  lemma GoneSwallows(a: Engine)
    requires a.ledger == [FactOf(BOB_TROLL, 42000)] && a.encounters == map[] && a.assignments == map[] && Players(a) && NoEof(a)
    requires a.sourceActive == map["b" := Orc()]
    ensures var c := ProcessDamage(a, 0);
            c.ledger == a.ledger && c.encounters == map[] && NoEof(c) && !Listed(c, 0) && c.policy == a.policy && c.now == a.now
            && 0 in c.assignments && Read(c, c.ledger[0]).startQualified
  {
    hide MintId, Read, Settle;
    BobIsRead(a, a.ledger[0], "troll");
    assert Correlated(a, "s", Print("troll", 200)) == {};
    var c := ProcessDamage(a, 0);
    HitIsListedIff(a, 0);
    assert Place(a, a.ledger[0]) == (a, Some(Orc()));
    SettleLists(a, Orc(), 0, BobReading("troll", 200));
    assert c.encounters == map[];
    BobIsRead(c, c.ledger[0], "troll");
  }

  /** From the start of the engine: Bob's qualified hit is accepted into the ledger and
      assigned to an encounter that has gone, and no encounter lists it. */
  lemma HitIsLostInARun(publish: Publisher)
    ensures var steps := Opening() + [Apply(33000, NewRecord(BOB_ORC)), Tick(41000), Apply(42000, NewRecord(BOB_TROLL))];
            var s := Run(NewEngine(POLICY), steps, publish);
            |s.ledger| == 1 && s.ledger[0].event == YouHit("troll") && Read(s, s.ledger[0]).startQualified && !Listed(s, 0)
            && 0 in s.assignments && s.assignments[0] !in s.encounters
  {
    hide StepOnce, MintId, At, Reused, BobFollowsGone, Opened, Read, Listed;
    var steps := Opening() + [Apply(33000, NewRecord(BOB_ORC)), Tick(41000), Apply(42000, NewRecord(BOB_TROLL))];
    assert steps[..5] == Opening() + [steps[4]] && steps[..6] == steps[..5] + [steps[5]] && steps == steps[..6] + [steps[6]];
    OpeningOpens(publish);
    RunMore(Opening(), steps[4], publish); RunMore(steps[..5], steps[5], publish); RunMore(steps[..6], steps[6], publish);
    BobReuses(Run(NewEngine(POLICY), Opening(), publish), publish);
    BookDrains(Run(NewEngine(POLICY), steps[..5], publish), publish);
    BobHitsNothing(Run(NewEngine(POLICY), steps[..6], publish), publish);
  }
}
