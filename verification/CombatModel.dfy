/** Data of the combat engine: crates/eqcombat/src/model.rs, the records of
    crates/eqcombat/src/engine.rs and the observations of crates/eqlog. */
module CombatModel {
  import opened Foundations

  type SourceId = string
  type EncounterId = string
  /** A canonical target: the lower-cased displayed name. */
  type TargetId = string

  datatype Policy = Policy(
    inactivityMs: U64, endingGraceMs: U64, heldMs: U64, stableEofMs: U64,
    lagEqSeconds: EqSecond, lagReceiptMs: U64, bridgeSeconds: EqSecond,
    maxEncounters: nat, maxLedgerFacts: nat, maxRecordIds: nat)
  {
    /** `CombatPolicy::validate`. */
    predicate Valid() {
      inactivityMs > 0 && endingGraceMs > 0 && heldMs > 0 && stableEofMs > 0 && lagEqSeconds > 0
      && bridgeSeconds >= 0 && maxEncounters > 0 && maxLedgerFacts > 0 && maxRecordIds > 0
    }
  }

  datatype LogSource = LogSource(id: SourceId, character: string, server: string)
  datatype Participant = Participant(server: string, name: string)
  datatype RecordId = RecordId(source: SourceId, generation: U64, sequence: U64)

  datatype Perspective = Named | You | Your | Yourself
  datatype Observed = Observed(name: string, perspective: Perspective)
  datatype DamageKind = Melee | DirectSpell | DamageOverTime | Proc | DamageShield | Bane | Pet | OtherIncluded
  datatype Outcome = Hit | Miss | Dodge | Parry | Block | Riposte | Invulnerable | Absorbed | Rejected

  datatype FactEvent =
    | Damage(attacker: Observed, owner: Option<Observed>, defender: Observed, amount: U64,
             kind: DamageKind, ability: Option<string>, outcome: Outcome, detail: string)
    | Attempt(attacker: Observed, defender: Observed, detail: string)
    | Slain(target: Observed, detail: string)

  datatype LogEvent =
    | Combat(fact: FactEvent)
    | WhoResult(character: string)
    | OwnershipClaimed(pet: string, owner: Observed)
    | PlayerEvidence(player: Observed)
    | ZoneChanged(zone: string)
    | Ignored

  datatype Record = Record(id: RecordId, source: LogSource, eqTime: Option<EqSecond>, events: seq<LogEvent>)

  datatype GapReason =
    | FileRecreated | FileTruncated | BoundaryChanged | OversizedRecord | DiscardUntilNewline
    | SourceReassociated | CalendarRegression | OutOfOrderClosedSecond | GenerationChanged

  datatype Input =
    | Registered(source: LogSource, generation: U64)
    | Removed(sourceId: SourceId)
    | Gap(sourceId: SourceId, generation: U64, reason: GapReason)
    | StableEof(sourceId: SourceId, generation: U64)
    | NewRecord(record: Record)

  datatype SourceState = SourceState(
    source: LogSource, generation: U64, present: bool, registeredAt: U64, continuity: U64,
    observed: Option<EqSecond>, closedThrough: Option<EqSecond>, historyFloor: Option<EqSecond>,
    lastProgressAt: U64, lastSequence: Option<U64>,
    eofSecond: Option<EqSecond>, eofFirstAt: Option<U64>, eofPasses: nat, zone: Option<string>)

  datatype Claim = Claim(server: string, pet: string, owner: Participant, validFrom: EqSecond, source: SourceId)

  datatype LedgerFact = LedgerFact(record: RecordId, source: LogSource, eqTime: EqSecond, receipt: U64, event: FactEvent)

  datatype Fingerprint = Fingerprint(
    eqTime: EqSecond, attacker: string, defender: string, amount: U64, kind: DamageKind, ability: Option<string>)

  datatype TargetState = TargetState(
    display: string, terminal: bool, firstDamage: EqSecond, lastDamage: EqSecond, terminalAt: Option<EqSecond>)

  datatype EndReason = AllTargetsTerminal | Inactivity

  datatype Phase =
    | Active
    | Ending(reason: EndReason, enteredAt: U64, cutoff: EqSecond, closure: set<SourceId>)
    | Held(reason: EndReason, until: U64)

  /** What a finalized encounter publishes for good. */
  datatype Snapshot = Snapshot(
    id: EncounterId, reason: Option<EndReason>, heldUntil: Option<U64>, encounterSeconds: U64, raidDamage: U128,
    rows: map<Participant, Row>, sources: set<SourceId>, lastSustained: EqSecond)

  datatype SourceQuality = AuthoritativePersonal | CompleteObserver | IncompletePersonal | BestPartialObserver | ProvisionalPet

  datatype Row = Row(
    managed: bool, hasPet: bool, provisional: bool, damage: U128, activeSeconds: U64, dps: U128, sdps: U128,
    contribution: U128, quality: SourceQuality, elected: SourceId)

  datatype Encounter = Encounter(
    id: EncounterId, server: string, phase: Phase,
    sources: set<SourceId>, continuity: map<SourceId, U64>, partial: set<SourceId>,
    managed: set<Participant>, targets: map<TargetId, TargetState>,
    facts: seq<nat>, fingerprints: set<Fingerprint>,
    startEq: EqSecond, endEq: EqSecond, lastSustainEq: EqSecond,
    startReceipt: U64, lastSustainReceipt: U64, frozen: Option<Snapshot>)

  datatype Occurrence = Occurrence(source: SourceId, generation: U64, second: EqSecond, content: FactEvent)

  /** The whole engine state, as a value. */
  datatype Engine = Engine(
    policy: Policy, sources: map<SourceId, SourceState>,
    accepted: set<RecordId>, acceptedOrder: seq<RecordId>,
    occurrences: map<Occurrence, U64>,
    ledger: seq<LedgerFact>, assignments: map<nat, EncounterId>,
    encounters: map<EncounterId, Encounter>, sourceActive: map<SourceId, EncounterId>,
    verified: set<Participant>, ownership: seq<Claim>, now: U64)

  function NewEngine(policy: Policy): Engine {
    Engine(policy, map[], {}, [], map[], [], map[], map[], map[], {}, [], 0)
  }

  /** The part of the engine that the election reads. */
  datatype Evidence = Evidence(
    policy: Policy, sources: map<SourceId, SourceState>, ledger: seq<LedgerFact>,
    verified: set<Participant>, ownership: seq<Claim>, now: U64)

  function EvidenceOf(s: Engine): Evidence {
    Evidence(s.policy, s.sources, s.ledger, s.verified, s.ownership, s.now)
  }

  // ----- names -----

  predicate SameServer(a: string, b: string) { Lower(a) == Lower(b) }

  /** The Unicode White_Space property. */
  predicate IsSpace(c: char) {
    '\U{0009}' <= c <= '\U{000D}' || c == ' ' || c == '\U{0085}' || c == '\U{00A0}' || c == '\U{1680}'
    || '\U{2000}' <= c <= '\U{200A}' || c == '\U{2028}' || c == '\U{2029}' || c == '\U{202F}'
    || c == '\U{205F}' || c == '\U{3000}'
  }

  function TrimStart(s: string): string { if s != "" && IsSpace(s[0]) then TrimStart(s[1..]) else s }
  function TrimEnd(s: string): string { if s != "" && IsSpace(s[|s| - 1]) then TrimEnd(s[..|s| - 1]) else s }

  function FirstDot(s: string, i: nat): Option<nat>
    requires i <= |s|
    ensures FirstDot(s, i).Some? ==> i <= FirstDot(s, i).value < |s|
    decreases |s| - i
  { if i == |s| then None else if s[i] == '.' then Some(i) else FirstDot(s, i + 1) }

  function LastDot(s: string, n: nat): Option<nat>
    requires n <= |s|
    ensures LastDot(s, n).Some? ==> LastDot(s, n).value < n
  { if n == 0 then None else if s[n - 1] == '.' then Some(n - 1) else LastDot(s, n - 1) }

  function ParticipantOf(server: string, name: string): Participant {
    Participant(Lower(server), Lower(name))
  }

  /** `participant_from_name`: `Server.Name` overrides the log's own server. */
  function ParticipantFromName(defaultServer: string, display: string): Participant {
    var trimmed := TrimEnd(TrimStart(display));
    match FirstDot(trimmed, 0)
    case None => ParticipantOf(defaultServer, trimmed)
    case Some(k) =>
      var server, character := trimmed[..k], trimmed[k + 1..];
      if server != "" && character != "" && '.' !in character
      then ParticipantOf(server, character)
      else ParticipantOf(defaultServer, trimmed)
  }

  lemma PlainName(server: string, display: string)
    requires display != "" && !IsSpace(display[0]) && !IsSpace(display[|display| - 1]) && '.' !in display
    ensures ParticipantFromName(server, display) == ParticipantOf(server, display)
  {
    assert TrimStart(display) == display && TrimEnd(display) == display;
    NoDot(display, 0);
  }

  lemma {:induction false} NoDot(s: string, i: nat)
    requires i <= |s| && '.' !in s
    ensures FirstDot(s, i) == None
    decreases |s| - i
  { if i < |s| { NoDot(s, i + 1); } }

  predicate NameChar(c: char) {
    'a' <= c <= 'z' || 'A' <= c <= 'Z' || '0' <= c <= '9' || c == '-' || c == '_' || c == '`' || c == '\''
  }

  /** `possible_player_name`. */
  predicate PossiblePlayerName(display: string) {
    var name := match LastDot(display, |display|) case None => display case Some(k) => display[k + 1..];
    name != "" && (forall i | 0 <= i < |name| :: !IsSpace(name[i]) && NameChar(name[i])) && 'A' <= name[0] <= 'Z'
  }

  /** The display half of `resolve_observed`. */
  function Display(source: LogSource, o: Observed): string {
    if o.perspective == Named then o.name else source.character
  }

  /** The identity half of `resolve_observed`. */
  function Resolve(source: LogSource, o: Observed): Participant {
    ParticipantFromName(source.server, Display(source, o))
  }

  function Target(source: LogSource, o: Observed): TargetId { Lower(Display(source, o)) }

  function Personal(source: LogSource): Participant { ParticipantOf(source.server, source.character) }

  /** `claimed_owner` and `claimed_owner_in_encounter`: the latest claim by the
      deadline, the smaller source id on equal seconds, the later claim on a full tie. */
  function ClaimedOwner(claims: seq<Claim>, server: string, pet: string, deadline: EqSecond): Option<Participant> {
    match BestClaim(claims, server, pet, deadline)
    case None => None
    case Some(claim) => Some(claim.owner)
  }

  function BestClaim(claims: seq<Claim>, server: string, pet: string, deadline: EqSecond): Option<Claim> {
    if claims == [] then None
    else
      var last := claims[|claims| - 1];
      var before := BestClaim(claims[..|claims| - 1], server, pet, deadline);
      if last.server != Lower(server) || last.pet != Lower(pet) || last.validFrom > deadline then before
      else if before.None? || before.value.validFrom < last.validFrom
           || (before.value.validFrom == last.validFrom && StrLe(last.source, before.value.source)) then Some(last)
      else before
  }

  function SignedDecimal(n: int): string { if n < 0 then "-" + Decimal(-n) else Decimal(n) }

  /** `encounter_id`. */
  function MintId(source: LogSource, second: EqSecond, target: TargetId, p: Participant): EncounterId {
    Lower(source.server) + ":" + SignedDecimal(second) + ":" + target + ":" + p.name
  }
}
