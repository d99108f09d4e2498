/** One function per operation of the combat engine, on engine values. The class
    CombatEngine is proved against these; the theorems are about runs of Step. */
module CombatSteps {
  import opened Foundations
  import opened CombatModel

  /** Computes what a finalized encounter publishes; the lifecycle never looks inside. */
  type Publisher = (Evidence, Encounter) -> Option<Snapshot>

  // ----- sources -----

  ghost function RegisterSource(s: Engine, source: LogSource, generation: U64, now: U64): Engine {
    var id := source.id;
    var st :=
      if id in s.sources then
        var prior := s.sources[id];
        if prior.generation != generation || prior.source != source || !prior.present then
          prior.(source := source, present := true, generation := generation,
               historyFloor := MaxOpt(prior.historyFloor, prior.closedThrough),
               continuity := (prior.continuity + 1) % U64_LIMIT,
               lastSequence := None, observed := None, closedThrough := None,
               eofSecond := None, eofFirstAt := None, eofPasses := 0,
               registeredAt := now, lastProgressAt := now)
        else prior
      else SourceState(source, generation, true, now, 0, None, None, None, now, None, None, None, 0, None);
    s.(verified := s.verified + {Personal(source)},
       sources := s.sources[id := st],
       encounters := map e | e in s.encounters :: JoinManaged(s.encounters[e], source))
  }

  lemma RegisterKnows(s: Engine, source: LogSource, generation: U64, now: U64)
    ensures RegisterSource(s, source, generation, now).policy == s.policy
    ensures source.id in RegisterSource(s, source, generation, now).sources
  {}

  function JoinManaged(e: Encounter, source: LogSource): Encounter {
    if !e.phase.Held? && SameServer(e.server, Personal(source).server)
    then e.(managed := e.managed + {Personal(source)}) else e
  }

  function MarkPartial(encounters: map<EncounterId, Encounter>, source: SourceId): map<EncounterId, Encounter> {
    map e | e in encounters :: PartialEncounter(encounters[e], source)
  }

  function PartialEncounter(e: Encounter, source: SourceId): Encounter {
    if source in e.sources && !e.phase.Held? then e.(partial := e.partial + {source}) else e
  }

  function RemoveSource(s: Engine, source: SourceId): Engine {
    s.(sources := if source in s.sources then s.sources[source := s.sources[source].(present := false)] else s.sources,
       encounters := MarkPartial(s.encounters, source))
  }

  predicate Resets(reason: GapReason) {
    reason.FileRecreated? || reason.FileTruncated? || reason.BoundaryChanged?
    || reason.SourceReassociated? || reason.GenerationChanged?
  }

  function GapSource(st: SourceState, generation: U64, reason: GapReason): SourceState {
    var gapped := st.(historyFloor := MaxOpt(st.historyFloor, st.closedThrough),
                      continuity := (st.continuity + 1) % U64_LIMIT,
                      generation := generation, lastSequence := None,
                      eofSecond := None, eofFirstAt := None, eofPasses := 0);
    if Resets(reason) then gapped.(observed := None, closedThrough := None) else gapped
  }

  function MarkGap(s: Engine, source: SourceId, generation: U64, reason: GapReason): Engine {
    s.(sources := if source in s.sources
                  then s.sources[source := GapSource(s.sources[source], generation, reason)] else s.sources,
       encounters := MarkPartial(s.encounters, source))
  }

  function NoteStableEof(s: Engine, source: SourceId, generation: U64, now: U64): Engine {
    if source !in s.sources then s else
      var st := s.sources[source];
      if st.generation != generation || st.observed.None? then s
      else if st.eofSecond == st.observed then
        s.(sources := s.sources[source := st.(eofPasses := Min(st.eofPasses + 1, 255))])
      else
        s.(sources := s.sources[source := st.(eofSecond := st.observed, eofFirstAt := Some(now), eofPasses := 1)])
  }

  // ----- records -----

  datatype Verdict = Reject | Accept(gap: Option<GapReason>)

  /** The checks of `apply_record` before anything is stored for the record. */
  function Judge(s: Engine, r: Record): Verdict
    requires r.source.id in s.sources
  {
    var st := s.sources[r.source.id];
    if r.id.generation < st.generation then Reject
    else
      var newer := r.id.generation > st.generation;
      if !newer && st.lastSequence.Some? && r.id.sequence <= st.lastSequence.value then Reject
      else if r.eqTime.Some? && st.observed.Some? && r.eqTime.value < st.observed.value then
        Accept(Some(CalendarRegression))
      else if r.eqTime.Some? && st.closedThrough.Some? && r.eqTime.value <= st.closedThrough.value then
        Accept(Some(OutOfOrderClosedSecond))
      else Accept(if newer then Some(GenerationChanged) else None)
  }

  /** The bounded window of accepted ids: insert, then evict the oldest. */
  function Remember(s: Engine, id: RecordId): Engine
    requires 0 < s.policy.maxRecordIds
  {
    var order := s.acceptedOrder + [id];
    var evicted := if |order| > s.policy.maxRecordIds then |order| - s.policy.maxRecordIds else 0;
    s.(acceptedOrder := order[evicted..],
       accepted := (s.accepted + {id}) - (set i | 0 <= i < evicted :: order[i]))
  }

  /** `eq_time.checked_add(-1).unwrap_or(previous)`. */
  function CloseBefore(t: EqSecond, previous: EqSecond): EqSecond {
    match CheckedAdd(t, -1) case Some(c) => c case None => previous
  }

  /** The source's own progress when a record is accepted. */
  function Progress(st: SourceState, r: Record, now: U64): SourceState {
    var st := st.(generation := r.id.generation, lastSequence := Some(r.id.sequence), present := true);
    match r.eqTime
    case None => st
    case Some(t) =>
      var moved :=
        if st.observed.None? || t > st.observed.value then
          var closing :=
            if st.observed.None? then st
            else
              var close := CloseBefore(t, st.observed.value);
              st.(closedThrough := if st.closedThrough.None? then Some(close)
                                   else Some(Max(st.closedThrough.value, close)));
          closing.(observed := Some(t), lastProgressAt := now)
        else st;
      moved.(eofSecond := None, eofFirstAt := None, eofPasses := 0)
  }

  predicate IsFact(e: LogEvent) { e.Combat? }

  function FactCount(events: seq<LogEvent>): nat {
    if events == [] then 0 else (if IsFact(events[0]) then 1 else 0) + FactCount(events[1..])
  }

  /** The fail-closed withdrawal when the ledger bound is reached. */
  function Withdraw(s: Engine): Engine {
    s.(encounters := map[], sourceActive := map[], ledger := [], assignments := map[])
  }

  /** Everything `apply_record` does up to the event loop, once the record is accepted. */
  function Admit(s: Engine, r: Record, now: U64, gap: Option<GapReason>): (s': Engine)
    requires r.source.id in s.sources && 0 < s.policy.maxRecordIds
    ensures r.source.id in s'.sources && s'.policy == s.policy && s'.now == s.now
  {
    var gapped := if gap.Some? then MarkGap(s, r.source.id, r.id.generation, gap.value) else s;
    var kept := Remember(gapped, r.id);
    kept.(sources := kept.sources[r.source.id := Progress(kept.sources[r.source.id], r, now)])
  }

  /** Facts of the record reach the ledger only past the history floor. */
  predicate Usable(s: Engine, r: Record)
    requires r.source.id in s.sources
  {
    r.eqTime.Some? &&
    !(s.sources[r.source.id].historyFloor.Some? && r.eqTime.value <= s.sources[r.source.id].historyFloor.value)
  }

  function MakeRoom(s: Engine, r: Record): Engine {
    if |s.ledger| + FactCount(r.events) > s.policy.maxLedgerFacts then Withdraw(s) else s
  }

  /** `apply_record` up to its event loop, and whether the loop is reached. */
  ghost function Prepare(s: Engine, r: Record, now: U64): (p: (Engine, bool))
    requires 0 < s.policy.maxRecordIds
    ensures p.0.policy == s.policy && p.0.now == s.now && (p.1 ==> r.eqTime.Some?)
  {
    if r.id.source != r.source.id || r.id in s.accepted then (s, false)
    else
      var known := if r.source.id in s.sources then s else RegisterSource(s, r.source, r.id.generation, now);
      match Judge(known, r)
      case Reject => (known, false)
      case Accept(gap) =>
        var admitted := Admit(known, r, now, gap);
        if Usable(admitted, r) then (MakeRoom(admitted, r), true) else (admitted, false)
  }

  ghost function ApplyRecord(s: Engine, r: Record, now: U64): (s': Engine)
    requires 0 < s.policy.maxRecordIds
    ensures s'.policy == s.policy && s'.now == s.now
  {
    var (p, reached) := Prepare(s, r, now);
    if reached then ApplyEvents(p, r, r.eqTime.value, now, |r.events|) else p
  }

  /** The event loop after its first n iterations. */
  ghost function ApplyEvents(s: Engine, r: Record, t: EqSecond, now: U64, n: nat): (s': Engine)
    requires n <= |r.events|
    ensures s'.policy == s.policy && s'.now == s.now
  {
    if n == 0 then s else ApplyEvent(ApplyEvents(s, r, t, now, n - 1), r, t, now, r.events[n - 1])
  }

  ghost function ApplyEvent(s: Engine, r: Record, t: EqSecond, now: U64, event: LogEvent): (s': Engine)
    ensures s'.policy == s.policy && s'.now == s.now
  {
    match event
    case Combat(fact) =>
      var counted := CountOccurrence(s, r.id, t, fact);
      if Replayed(counted, r.id, t, fact) then counted
      else ProcessFact(Append(counted, LedgerFact(r.id, r.source, t, now, fact)))
    case WhoResult(character) => s.(verified := s.verified + {ParticipantOf(r.source.server, character)})
    case OwnershipClaimed(pet, owner) =>
      var who := Resolve(r.source, owner);
      s.(verified := s.verified + {who},
         ownership := s.ownership + [Claim(Lower(r.source.server), Lower(pet), who, t, r.source.id)])
    case PlayerEvidence(player) => s.(verified := s.verified + {Resolve(r.source, player)})
    case ZoneChanged(zone) =>
      if r.source.id in s.sources
      then s.(sources := s.sources[r.source.id := s.sources[r.source.id].(zone := Some(zone))]) else s
    case Ignored => s
  }

  /** The engine with the new damage fact just appended, if this event gets that far. */
  ghost function DamageAt(s: Engine, r: Record, t: EqSecond, now: U64, event: LogEvent): Option<Engine> {
    if event.Combat? && event.fact.Damage? && !Replayed(CountOccurrence(s, r.id, t, event.fact), r.id, t, event.fact)
    then Some(Append(CountOccurrence(s, r.id, t, event.fact), LedgerFact(r.id, r.source, t, now, event.fact)))
    else None
  }

  function CountOccurrence(s: Engine, id: RecordId, t: EqSecond, fact: FactEvent): Engine {
    var key := Occurrence(id.source, id.generation, t, fact);
    var base := if |s.occurrences| >= s.policy.maxRecordIds && key !in s.occurrences then map[] else s.occurrences;
    s.(occurrences := base[key := SatAdd(if key in base then base[key] else 0, 1)])
  }

  /** `occurrence <= prior_max`: an earlier generation already showed it this often. */
  ghost predicate Replayed(s: Engine, id: RecordId, t: EqSecond, fact: FactEvent)
  {
    var key := Occurrence(id.source, id.generation, t, fact);
    key in s.occurrences &&
    exists k | k in s.occurrences ::
      k.source == id.source && k.generation < id.generation && k.second == t && k.content == fact
      && s.occurrences[key] <= s.occurrences[k]
  }

  function Append(s: Engine, fact: LedgerFact): Engine { s.(ledger := s.ledger + [fact]) }

  /** Processes the newest ledger fact. */
  ghost function ProcessFact(s: Engine): (r: Engine)
    requires s.ledger != []
    ensures OnlyBook(s, r)
  {
    var index := |s.ledger| - 1;
    match s.ledger[index].event
    case Damage(_, _, _, _, _, _, _, _) => ProcessDamage(s, index)
    case Attempt(_, _, _) => ProcessAttempt(s, index)
    case Slain(_, _) => ProcessSlain(s, index)
  }

  // ----- damage -----

  /** Nothing but the book of encounters and its two indexes differs. */
  ghost predicate OnlyBook(a: Engine, b: Engine) {
    b == a.(encounters := b.encounters, assignments := b.assignments, sourceActive := b.sourceActive)
  }

  /** What `process_damage` derives from the fact and the identity evidence. */
  datatype Reading = Reading(
    participant: Participant, target: TargetId, display: string, attackerVerified: bool, possible: bool,
    startQualified: bool, positive: bool, hostile: bool, fingerprint: Fingerprint)

  function Read(s: Engine, fact: LedgerFact): Reading
    requires fact.event.Damage?
  {
    var d := fact.event;
    var attacker := Resolve(fact.source, d.attacker);
    var defender := Resolve(fact.source, d.defender);
    var owner := if d.owner.Some? then Some(Resolve(fact.source, d.owner.value))
                 else ClaimedOwner(s.ownership, fact.source.server, Display(fact.source, d.attacker), fact.eqTime);
    var participant := if owner.Some? then owner.value else attacker;
    var attackerVerified := owner.Some? || attacker in s.verified || d.attacker.perspective != Named;
    var positive := d.amount > 0 && d.outcome == Hit;
    var hostile := defender !in s.verified && participant != defender;
    var target := Target(fact.source, d.defender);
    Reading(participant, target, Display(fact.source, d.defender), attackerVerified,
            attackerVerified || participant in s.verified || PossiblePlayerName(Display(fact.source, d.attacker)),
            positive && attackerVerified && hostile, positive, hostile,
            Fingerprint(fact.eqTime, attacker.name, target, d.amount, d.kind,
                        if d.ability.Some? then Some(Lower(d.ability.value)) else None))
  }

  ghost function Correlated(s: Engine, server: string, fp: Fingerprint): set<EncounterId> {
    set id | id in s.encounters && !s.encounters[id].phase.Held?
             && SameServer(s.encounters[id].server, server) && fp in s.encounters[id].fingerprints
  }

  /** Where the fact goes before the lifecycle phase is looked at; may merge. */
  ghost function Choose(s: Engine, source: LogSource, fp: Fingerprint): (r: (Engine, Option<EncounterId>))
    ensures OnlyBook(s, r.0)
  {
    var current := if source.id in s.sourceActive then Some(s.sourceActive[source.id]) else None;
    var similar := Correlated(s, source.server, fp);
    if similar == {} then (s, current)
    else
      var correlated := Least(similar);
      if current.None? then (s, Some(correlated))
      else if current.value == correlated then (s, current)
      else Merge(s, current.value, correlated)
  }

  /** Merging keeps the smaller id. */
  ghost function Merge(s: Engine, left: EncounterId, right: EncounterId): (r: (Engine, Option<EncounterId>))
    requires left != right
    ensures OnlyBook(s, r.0)
  {
    var chosen := if StrLe(left, right) then left else right;
    var other := if chosen == left then right else left;
    if chosen !in s.encounters then (s, Some(other))
    else if other !in s.encounters then (s, Some(chosen))
    else
      (s.(encounters := (s.encounters - {chosen, other})[chosen := Join(s.encounters[chosen], s.encounters[other])],
          assignments := Redirect(s.assignments, other, chosen),
          sourceActive := Redirect(s.sourceActive, other, chosen)),
       Some(chosen))
  }

  function Redirect<K>(m: map<K, EncounterId>, from: EncounterId, to: EncounterId): map<K, EncounterId> {
    map k | k in m :: if m[k] == from then to else m[k]
  }

  ghost function Join(chosen: Encounter, other: Encounter): Encounter {
    chosen.(sources := chosen.sources + other.sources,
            continuity := chosen.continuity + other.continuity,
            partial := chosen.partial + other.partial,
            managed := chosen.managed + other.managed,
            targets := JoinTargets(chosen.targets, other.targets),
            facts := Ascending(FactSet(chosen.facts) + FactSet(other.facts)),
            fingerprints := chosen.fingerprints + other.fingerprints,
            startEq := Min(chosen.startEq, other.startEq),
            endEq := Max(chosen.endEq, other.endEq),
            lastSustainEq := Max(chosen.lastSustainEq, other.lastSustainEq),
            startReceipt := Min(chosen.startReceipt, other.startReceipt),
            lastSustainReceipt := Max(chosen.lastSustainReceipt, other.lastSustainReceipt),
            phase := Active, frozen := None)
  }

  function JoinTargets(a: map<TargetId, TargetState>, b: map<TargetId, TargetState>): map<TargetId, TargetState> {
    map t | t in a.Keys + b.Keys ::
      if t !in b then a[t] else if t !in a then b[t] else JoinTarget(a[t], b[t])
  }

  function JoinTarget(a: TargetState, b: TargetState): TargetState {
    a.(firstDamage := Min(a.firstDamage, b.firstDamage), lastDamage := Max(a.lastDamage, b.lastDamage),
       terminal := a.terminal && b.terminal, terminalAt := MaxOpt(a.terminalAt, b.terminalAt))
  }

  function FactSet(facts: seq<nat>): set<nat> { set i | i in facts }

  datatype Route = Dropped | Unrouted | Into(id: EncounterId)

  /** The ending-phase rules: resume, keep, redirect or exclude. */
  ghost function Reroute(s: Engine, chosen: Option<EncounterId>, fact: LedgerFact, target: TargetId): (r: (Engine, Route))
    ensures OnlyBook(s, r.0)
  {
    match chosen
    case None => (s, Unrouted)
    case Some(id) =>
      if id !in s.encounters || !s.encounters[id].phase.Ending? then (s, Into(id))
      else
        var e := s.encounters[id];
        var closing := fact.source.id in e.phase.closure;
        if closing && (e.phase.reason.Inactivity? || (target in e.targets && fact.eqTime > e.phase.cutoff)) then
          (s.(encounters := s.encounters[id := Resume(e, target)]), Into(id))
        else if closing && fact.eqTime <= e.phase.cutoff then (s, Into(id))
        else if !closing && fact.eqTime <= e.phase.cutoff then (s, Dropped)
        else (s, Unrouted)
  }

  function Resume(e: Encounter, target: TargetId): Encounter {
    e.(phase := Active,
       targets := if target in e.targets
                  then e.targets[target := e.targets[target].(terminal := false, terminalAt := None)] else e.targets)
  }

  /** Late combat of a member source for a held encounter. */
  predicate LateAfterClosure(s: Engine, fact: LedgerFact) {
    exists id | id in s.encounters ::
      s.encounters[id].phase.Held? && fact.source.id in s.encounters[id].sources
      && SameServer(s.encounters[id].server, fact.source.server) && fact.eqTime <= s.encounters[id].endEq
  }

  /** Where an unrouted fact goes: nowhere, to a new encounter, or to one that
      already carries the minted id, whatever its phase. */
  ghost function Mint(s: Engine, fact: LedgerFact, v: Reading): (r: (Engine, Option<EncounterId>))
    ensures OnlyBook(s, r.0)
  {
    if LateAfterClosure(s, fact) || !v.startQualified then (s, None)
    else
      var id := MintId(fact.source, fact.eqTime, v.target, v.participant);
      if id in s.encounters then (s, Some(id))
      else if |s.encounters| >= s.policy.maxEncounters then (s, None)
      else (s.(encounters := s.encounters[id := Fresh(s, id, fact)]), Some(id))
  }

  function Fresh(s: Engine, id: EncounterId, fact: LedgerFact): Encounter {
    var source := fact.source.id;
    Encounter(id, fact.source.server, Active, {source},
              map[source := if source in s.sources then s.sources[source].continuity else 0], {},
              ManagedIdentities(s, fact.source.server), map[], [], {},
              fact.eqTime, fact.eqTime, fact.eqTime, fact.receipt, fact.receipt, None)
  }

  function ManagedIdentities(s: Engine, server: string): set<Participant> {
    set x | x in s.sources && s.sources[x].present && SameServer(s.sources[x].source.server, server)
      :: Personal(s.sources[x].source)
  }

  /** The engine and the route after merging and the ending-phase rules. */
  ghost function Routed(s: Engine, fact: LedgerFact): (r: (Engine, Route))
    requires fact.event.Damage?
    ensures OnlyBook(s, r.0)
  {
    var v := Read(s, fact);
    var (s1, chosen) := Choose(s, fact.source, v.fingerprint);
    Reroute(s1, chosen, fact, v.target)
  }

  /** The encounter the fact is put into, with the engine after routing and minting. */
  ghost function Place(s: Engine, fact: LedgerFact): (r: (Engine, Option<EncounterId>))
    requires fact.event.Damage?
    ensures OnlyBook(s, r.0)
  {
    var (routed, route) := Routed(s, fact);
    match route
    case Dropped => (routed, None)
    case Unrouted => Mint(routed, fact, Read(s, fact))
    case Into(id) => (routed, Some(id))
  }

  /** The id that the mint branch yields, whether the encounter is new or already in the book. */
  ghost function MintsInto(s: Engine, fact: LedgerFact): Option<EncounterId>
    requires fact.event.Damage?
  {
    if Routed(s, fact).1.Unrouted? then Mint(Routed(s, fact).0, fact, Read(s, fact)).1 else None
  }

  predicate Contributes(s: Engine, id: EncounterId, v: Reading) {
    v.positive && v.hostile && (v.startQualified || (KnowsTarget(s, id, v.target) && v.possible))
  }

  predicate KnowsTarget(s: Engine, id: EncounterId, target: TargetId) {
    id in s.encounters && target in s.encounters[id].targets
  }

  ghost function ProcessDamage(s: Engine, index: nat): (r: Engine)
    requires index < |s.ledger| && s.ledger[index].event.Damage?
    ensures OnlyBook(s, r)
  {
    var fact := s.ledger[index];
    var (placed, chosen) := Place(s, fact);
    if chosen.None? then placed else Settle(placed, chosen.value, index, Read(s, fact))
  }

  /** The second half of `process_damage`: the fact joins the chosen encounter. */
  function Settle(s: Engine, id: EncounterId, index: nat, v: Reading): (r: Engine)
    requires index < |s.ledger|
    ensures OnlyBook(s, r)
  {
    var fact := s.ledger[index];
    var contributes := Contributes(s, id, v);
    if !contributes && !KnowsTarget(s, id, v.target) then s
    else
      var stored := Store(AddMember(s, id, fact.source), id, index, v, contributes);
      var active := stored.(sourceActive := stored.sourceActive[fact.source.id := id]);
      if v.startQualified then Promote(active, id, fact.source.id, v.target, fact.eqTime) else active
  }

  /** `add_source_member`. */
  function AddMember(s: Engine, id: EncounterId, source: LogSource): (r: Engine)
    ensures OnlyBook(s, r)
  {
    if id !in s.encounters || source.id in s.encounters[id].sources then s
    else s.(encounters := s.encounters[id := NewMember(s.sources, s.encounters[id], source)])
  }

  lemma MemberKeepsTargets(s: Engine, id: EncounterId, source: LogSource)
    ensures id in s.encounters ==>
              id in AddMember(s, id, source).encounters && AddMember(s, id, source).encounters[id].targets == s.encounters[id].targets
  {}

  function NewMember(sources: map<SourceId, SourceState>, e: Encounter, source: LogSource): Encounter {
    var known := source.id in sources;
    e.(sources := e.sources + {source.id},
       continuity := e.continuity[source.id := if known then sources[source.id].continuity else 0],
       partial := if !known || sources[source.id].registeredAt > e.startReceipt
                  then e.partial + {source.id} else e.partial,
       managed := e.managed + {Personal(source)})
  }

  /** The fact enters the encounter's list and the assignments. */
  function Store(s: Engine, id: EncounterId, index: nat, v: Reading, contributes: bool): (r: Engine)
    requires index < |s.ledger|
    ensures OnlyBook(s, r)
  {
    s.(encounters := if id in s.encounters
                     then s.encounters[id := Absorb(s.encounters[id], index, s.ledger[index], v, contributes)]
                     else s.encounters,
       assignments := s.assignments[index := id])
  }

  /** Facts that only sustain leave the combat interval and the targets alone. */
  function Absorb(e: Encounter, index: nat, fact: LedgerFact, v: Reading, contributes: bool): Encounter {
    var t := fact.eqTime;
    var hit :=
      if !contributes then e
      else
        var target := if v.target in e.targets then e.targets[v.target]
                      else TargetState(v.display, false, t, t, None);
        var struck := target.(lastDamage := Max(target.lastDamage, t), terminal := false,
                              terminalAt := if target.terminal then None else target.terminalAt);
        e.(targets := e.targets[v.target := struck], fingerprints := e.fingerprints + {v.fingerprint},
           startEq := Min(e.startEq, t), startReceipt := Min(e.startReceipt, fact.receipt), endEq := Max(e.endEq, t));
    hit.(lastSustainEq := Max(hit.lastSustainEq, t),
         lastSustainReceipt := Max(hit.lastSustainReceipt, fact.receipt), facts := hit.facts + [index])
  }

  /** The unassigned earlier facts that a starting hit pulls in. */
  predicate Promotable(s: Engine, i: nat, source: SourceId, target: TargetId, anchor: EqSecond)
    requires i < |s.ledger|
  {
    var fact := s.ledger[i];
    i !in s.assignments && fact.source.id == source && anchor - 30 <= fact.eqTime <= anchor
    && fact.event.Damage? && Target(fact.source, fact.event.defender) == target
    && PossiblePlayerName(Display(fact.source, fact.event.attacker))
  }

  /** `promote_prior_facts`: one index of the ledger at a time, up to n. */
  function PromoteUpTo(s: Engine, id: EncounterId, source: SourceId, target: TargetId, anchor: EqSecond, n: nat): (r: Engine)
    requires n <= |s.ledger|
    ensures OnlyBook(s, r)
  {
    if n == 0 then s else
      var before := PromoteUpTo(s, id, source, target, anchor, n - 1);
      if Promotable(s, n - 1, source, target, anchor) then PromoteOne(before, id, n - 1) else before
  }

  function PromoteOne(s: Engine, id: EncounterId, i: nat): (r: Engine)
    requires i < |s.ledger|
    ensures OnlyBook(s, r)
  {
    s.(encounters := if id in s.encounters
                     then s.encounters[id := Extend(s.encounters[id], i, s.ledger[i])] else s.encounters,
       assignments := s.assignments[i := id])
  }

  function Extend(e: Encounter, i: nat, fact: LedgerFact): Encounter {
    e.(facts := e.facts + [i], startEq := Min(e.startEq, fact.eqTime),
       startReceipt := Min(e.startReceipt, fact.receipt), endEq := Max(e.endEq, fact.eqTime))
  }

  function Promote(s: Engine, id: EncounterId, source: SourceId, target: TargetId, anchor: EqSecond): (r: Engine)
    ensures OnlyBook(s, r)
  {
    PromoteUpTo(s, id, source, target, anchor, |s.ledger|)
  }

  // ----- attempts and deaths -----

  function ProcessAttempt(s: Engine, index: nat): (r: Engine)
    requires index < |s.ledger| && s.ledger[index].event.Attempt?
    ensures OnlyBook(s, r)
  {
    var fact := s.ledger[index];
    if fact.source.id !in s.sourceActive then s
    else
      var id := s.sourceActive[fact.source.id];
      if !KnowsTarget(s, id, Target(fact.source, fact.event.defender))
         && !KnowsTarget(s, id, Target(fact.source, fact.event.attacker)) then s
      else s.(encounters := s.encounters[id := Sustain(s.encounters[id], index, fact)],
              assignments := s.assignments[index := id])
  }

  function Sustain(e: Encounter, index: nat, fact: LedgerFact): Encounter {
    e.(phase := if e.phase.Ending? && e.phase.reason.Inactivity? then Active else e.phase,
       lastSustainEq := Max(e.lastSustainEq, fact.eqTime),
       lastSustainReceipt := Max(e.lastSustainReceipt, fact.receipt), facts := e.facts + [index])
  }

  /** The encounter that knows the slain target: the source's own, else the first live one. */
  ghost function SlainIn(s: Engine, source: LogSource, target: TargetId): Option<EncounterId> {
    if source.id in s.sourceActive && KnowsTarget(s, s.sourceActive[source.id], target)
    then Some(s.sourceActive[source.id])
    else
      var live := LiveWithTarget(s, source.server, target);
      if live == {} then None else Some(Least(live))
  }

  ghost function LiveWithTarget(s: Engine, server: string, target: TargetId): set<EncounterId> {
    set id | id in s.encounters && !s.encounters[id].phase.Held?
             && SameServer(s.encounters[id].server, server) && target in s.encounters[id].targets
  }

  ghost function ProcessSlain(s: Engine, index: nat): (r: Engine)
    requires index < |s.ledger| && s.ledger[index].event.Slain?
    ensures OnlyBook(s, r)
  {
    var fact := s.ledger[index];
    var target := Target(fact.source, fact.event.target);
    var chosen := SlainIn(s, fact.source, target);
    if chosen.None? then s
    else
      var joined := AddMember(s, chosen.value, fact.source);
      joined.(encounters := joined.encounters[chosen.value := Kill(joined.encounters[chosen.value], index, fact, target)],
              assignments := joined.assignments[index := chosen.value])
  }

  function Kill(e: Encounter, index: nat, fact: LedgerFact, target: TargetId): Encounter
    requires target in e.targets
  {
    var dead := e.(targets := e.targets[target := e.targets[target].(terminal := true, terminalAt := Some(fact.eqTime))],
                   endEq := Max(e.endEq, fact.eqTime), facts := e.facts + [index]);
    if forall t | t in dead.targets :: dead.targets[t].terminal
    then EnterEnding(dead, AllTargetsTerminal, fact.receipt, fact.eqTime) else dead
  }

  function EnterEnding(e: Encounter, reason: EndReason, now: U64, cutoff: EqSecond): Encounter {
    if e.phase.Active? then e.(phase := Ending(reason, now, cutoff, e.sources)) else e
  }

  // ----- time -----

  predicate EofDue(st: SourceState, now: U64, policy: Policy) {
    st.eofPasses >= 2 && st.eofFirstAt.Some? && SatSub(now, st.eofFirstAt.value) >= policy.stableEofMs
  }

  function CloseAtEof(st: SourceState, now: U64, policy: Policy): SourceState {
    if EofDue(st, now, policy) && st.observed.Some?
    then st.(closedThrough := MaxOpt(st.closedThrough, st.observed)) else st
  }

  function ClosedSources(s: Engine, now: U64): map<SourceId, SourceState> {
    map x | x in s.sources :: CloseAtEof(s.sources[x], now, s.policy)
  }

  predicate InactivityDue(e: Encounter, now: U64, policy: Policy) {
    e.phase.Active? && SatSub(now, e.lastSustainReceipt) >= policy.inactivityMs
  }

  predicate ClosedTo(sources: map<SourceId, SourceState>, x: SourceId, cutoff: EqSecond) {
    x in sources && sources[x].closedThrough.Some? && sources[x].closedThrough.value >= cutoff
  }

  predicate AllClosed(sources: map<SourceId, SourceState>, phase: Phase)
    requires phase.Ending?
  { forall x | x in phase.closure :: ClosedTo(sources, x, phase.cutoff) }

  predicate EndingDue(sources: map<SourceId, SourceState>, e: Encounter, now: U64, policy: Policy) {
    e.phase.Ending? && (AllClosed(sources, e.phase) || SatSub(now, e.phase.enteredAt) >= policy.endingGraceMs)
  }

  /** `finalize`, after the sources that never closed have been marked partial. */
  function Finalize(ev: Evidence, e: Encounter, now: U64, publish: Publisher): Encounter
    requires e.phase.Ending?
  {
    var late := if AllClosed(ev.sources, e.phase) then {}
                else set x | x in e.phase.closure && !ClosedTo(ev.sources, x, e.phase.cutoff);
    var held := e.(partial := e.partial + late, phase := Held(e.phase.reason, SatAdd(now, ev.policy.heldMs)));
    var snapshot := publish(ev, held);
    if snapshot.Some? then held.(frozen := snapshot) else held
  }

  /** Active, then Ending, then Held: what one `advance_time` does to one encounter. */
  function AdvanceEncounter(ev: Evidence, e: Encounter, now: U64, publish: Publisher): Encounter {
    var ending := if InactivityDue(e, now, ev.policy) then EnterEnding(e, Inactivity, now, e.lastSustainEq) else e;
    if EndingDue(ev.sources, ending, now, ev.policy) then Finalize(ev, ending, now, publish) else ending
  }

  function Advanced(s: Engine, now: U64, publish: Publisher): map<EncounterId, Encounter> {
    var ev := EvidenceOf(s).(sources := ClosedSources(s, now));
    map id | id in s.encounters :: AdvanceEncounter(ev, s.encounters[id], now, publish)
  }

  predicate Expired(e: Encounter, now: U64) { e.phase.Held? && now >= e.phase.until }

  /** `advance_time`. */
  function AdvanceTime(s: Engine, now: U64, publish: Publisher): Engine {
    var all := Advanced(s, now, publish);
    var kept := map id | id in all && !Expired(all[id], now) :: all[id];
    var drained := kept == map[] && all != map[];
    s.(sources := ClosedSources(s, now),
       encounters := kept,
       sourceActive := map x | x in s.sourceActive
                               && !(s.sourceActive[x] in all && NewlyHeld(s.encounters[s.sourceActive[x]], all[s.sourceActive[x]]))
                         :: s.sourceActive[x],
       ledger := if drained then [] else s.ledger,
       assignments := if drained && s.ledger != [] then map[] else s.assignments)
  }

  predicate NewlyHeld(before: Encounter, after: Encounter) { !before.phase.Held? && after.phase.Held? }

  // ----- steps and runs -----

  datatype Step = Apply(at: U64, input: Input) | Tick(at: U64)

  ghost function ApplyInput(s: Engine, at: U64, input: Input): (s': Engine)
    requires 0 < s.policy.maxRecordIds
    ensures s'.policy == s.policy && s'.now == s.now
  {
    match input
    case Registered(source, generation) => RegisterSource(s, source, generation, at)
    case Removed(source) => RemoveSource(s, source)
    case Gap(source, generation, reason) => MarkGap(s, source, generation, reason)
    case StableEof(source, generation) => NoteStableEof(s, source, generation, at)
    case NewRecord(record) => ApplyRecord(s, record, at)
  }

  function Clocked(s: Engine, at: U64): Engine { s.(now := Max(s.now, at)) }

  ghost function StepOnce(s: Engine, step: Step, publish: Publisher): (s': Engine)
    requires 0 < s.policy.maxRecordIds
    ensures s'.policy == s.policy && s'.now == Max(s.now, step.at)
  {
    AdvanceTime(Changed(s, step), Max(s.now, step.at), publish)
  }

  /** The state just before `advance_time`, with the clock already moved. */
  ghost function Changed(s: Engine, step: Step): (s': Engine)
    requires 0 < s.policy.maxRecordIds
    ensures s'.policy == s.policy && s'.now == Max(s.now, step.at)
  {
    match step
    case Apply(at, input) => ApplyInput(Clocked(s, at), at, input)
    case Tick(at) => Clocked(s, at)
  }

  /** The state after a whole run. */
  ghost function Run(s: Engine, steps: seq<Step>, publish: Publisher): (s': Engine)
    requires 0 < s.policy.maxRecordIds
    ensures s'.policy == s.policy
  {
    if steps == [] then s
    else StepOnce(Run(s, steps[..|steps| - 1], publish), steps[|steps| - 1], publish)
  }

  lemma RunStep(s: Engine, steps: seq<Step>, publish: Publisher, k: nat)
    requires 0 < s.policy.maxRecordIds && k < |steps|
    ensures Run(s, steps[..k + 1], publish) == StepOnce(Run(s, steps[..k], publish), steps[k], publish)
  {
    hide StepOnce;
    assert steps[..k + 1][..k] == steps[..k];
  }

  // ----- conditions on the damage facts of a run -----

  /** The condition holds of every engine about to process a new damage fact in this step. */
  ghost predicate StepGuarded(s: Engine, step: Step, ok: Engine -> bool)
    requires 0 < s.policy.maxRecordIds
  {
    step.Apply? && step.input.NewRecord? ==> RecordGuarded(Clocked(s, step.at), step.input.record, step.at, ok)
  }

  ghost predicate RecordGuarded(s: Engine, r: Record, now: U64, ok: Engine -> bool)
    requires 0 < s.policy.maxRecordIds
  {
    Prepare(s, r, now).1 ==>
      forall n | 0 <= n < |r.events| ::
        EventGuarded(ApplyEvents(Prepare(s, r, now).0, r, r.eqTime.value, now, n), r, now, r.events[n], ok)
  }

  ghost predicate EventGuarded(s: Engine, r: Record, now: U64, event: LogEvent, ok: Engine -> bool)
    requires r.eqTime.Some?
  {
    var at := DamageAt(s, r, r.eqTime.value, now, event);
    at.Some? ==> ok(at.value)
  }

  ghost predicate RunGuarded(s: Engine, steps: seq<Step>, publish: Publisher, ok: Engine -> bool)
    requires 0 < s.policy.maxRecordIds
  { forall k | 0 <= k < |steps| :: StepGuarded(Run(s, steps[..k], publish), steps[k], ok) }
}
