/** At-most-once records: the bounded window of ids, and the order of the records a
    source gets accepted. */
module CombatDedup {
  import opened Foundations
  import opened CombatModel
  import opened CombatSteps
  import CombatBarrier

  // ----- the window -----

  /** The set and the queue of accepted ids agree and respect the bound. */
  ghost predicate Window(s: Engine) {
    (forall id :: id in s.accepted <==> id in s.acceptedOrder)
    && (forall i, j | 0 <= i < j < |s.acceptedOrder| :: s.acceptedOrder[i] != s.acceptedOrder[j])
    && |s.acceptedOrder| <= s.policy.maxRecordIds
  }

  ghost predicate Agree(accepted: set<RecordId>, order: seq<RecordId>) {
    (forall id :: id in accepted <==> id in order)
    && (forall i, j | 0 <= i < j < |order| :: order[i] != order[j])
  }

  lemma PushAgrees(accepted: set<RecordId>, order: seq<RecordId>, id: RecordId)
    requires Agree(accepted, order) && id !in accepted
    ensures Agree(accepted + {id}, order + [id])
  {
    assert (order + [id])[|order|] == id;
  }

  /** `pop_front` and `remove`, for the first n ids. */
  lemma EvictAgrees(accepted: set<RecordId>, order: seq<RecordId>, n: nat)
    requires Agree(accepted, order) && n <= |order|
    ensures Agree(accepted - (set i | 0 <= i < n :: order[i]), order[n..])
  {
    var gone := set i | 0 <= i < n :: order[i];
    forall id ensures id in accepted - gone <==> id in order[n..] {
      if id in order[n..] {
        var i :| n <= i < |order| && order[i] == id;
        assert id in accepted && id !in gone;
      }
      if id in accepted - gone {
        var i :| 0 <= i < |order| && order[i] == id;
        assert i >= n;
        assert order[n..][i - n] == id;
      }
    }
  }

  lemma RememberWindow(s: Engine, id: RecordId)
    requires 0 < s.policy.maxRecordIds && Window(s) && id !in s.accepted
    ensures Window(Remember(s, id))
  {
    var order := s.acceptedOrder + [id];
    var evicted := if |order| > s.policy.maxRecordIds then |order| - s.policy.maxRecordIds else 0;
    assert Agree(s.accepted, s.acceptedOrder);
    PushAgrees(s.accepted, s.acceptedOrder, id);
    EvictAgrees(s.accepted + {id}, order, evicted);
  }

  /** Neither half of the window changes. */
  predicate SameWindow(s: Engine, s': Engine) {
    s'.accepted == s.accepted && s'.acceptedOrder == s.acceptedOrder && s'.policy == s.policy
  }

  lemma AdmitWindow(s: Engine, r: Record, now: U64, gap: Option<GapReason>)
    requires r.source.id in s.sources && 0 < s.policy.maxRecordIds && Window(s) && r.id !in s.accepted
    ensures Window(Admit(s, r, now, gap))
  {
    hide Progress, GapSource, Remember, Window;
    var gapped := if gap.Some? then MarkGap(s, r.source.id, r.id.generation, gap.value) else s;
    SameWindowKeeps(s, gapped);
    RememberWindow(gapped, r.id);
    SameWindowKeeps(Remember(gapped, r.id), Admit(s, r, now, gap));
  }

  lemma SameWindowKeeps(s: Engine, s': Engine)
    requires SameWindow(s, s')
    ensures Window(s) ==> Window(s')
  {}

  lemma RecordWindow(s: Engine, r: Record, now: U64)
    requires 0 < s.policy.maxRecordIds && Window(s)
    ensures Window(ApplyRecord(s, r, now))
  {
    hide RegisterSource, Admit, Judge, ApplyEvents, Window, MakeRoom;
    if !(r.id.source != r.source.id || r.id in s.accepted) {
      RegisterSameWindow(s, r.source, r.id.generation, now);
      var known := if r.source.id in s.sources then s else RegisterSource(s, r.source, r.id.generation, now);
      SameWindowKeeps(s, known);
      if Judge(known, r).Accept? {
        var a := Admit(known, r, now, Judge(known, r).gap);
        AdmitWindow(known, r, now, Judge(known, r).gap);
        RoomSameWindow(a, r);
        SameWindowKeeps(a, MakeRoom(a, r));
        if Usable(a, r) {
          EventsSameWindow(MakeRoom(a, r), r, r.eqTime.value, now, |r.events|);
          SameWindowKeeps(MakeRoom(a, r), ApplyRecord(s, r, now));
        }
      }
    }
  }

  lemma RegisterSameWindow(s: Engine, source: LogSource, generation: U64, now: U64)
    ensures SameWindow(s, RegisterSource(s, source, generation, now))
    ensures source.id in RegisterSource(s, source, generation, now).sources
  {}

  lemma RoomSameWindow(s: Engine, r: Record)
    ensures SameWindow(s, MakeRoom(s, r))
  {}

  lemma {:induction false} EventsSameWindow(s: Engine, r: Record, t: EqSecond, now: U64, n: nat)
    requires n <= |r.events|
    ensures SameWindow(s, ApplyEvents(s, r, t, now, n))
  {
    hide ApplyEvent;
    if n > 0 {
      EventsSameWindow(s, r, t, now, n - 1);
      EventSameWindow(ApplyEvents(s, r, t, now, n - 1), r, t, now, r.events[n - 1]);
    }
  }

  lemma EventSameWindow(s: Engine, r: Record, t: EqSecond, now: U64, event: LogEvent)
    ensures SameWindow(s, ApplyEvent(s, r, t, now, event))
  { hide ProcessFact; }

  lemma StepWindow(s: Engine, step: Step, publish: Publisher)
    requires 0 < s.policy.maxRecordIds && Window(s)
    ensures Window(StepOnce(s, step, publish))
  {
    hide Window, ApplyRecord, Advanced, ClosedSources;
    var c := Clocked(s, step.at);
    SameWindowKeeps(s, c);
    if step.Apply? && step.input.NewRecord? {
      RecordWindow(c, step.input.record, step.at);
    } else {
      SameWindowKeeps(c, Changed(s, step));
    }
    SameWindowKeeps(Changed(s, step), StepOnce(s, step, publish));
  }

  lemma {:induction false} WindowOverRuns(policy: Policy, steps: seq<Step>, publish: Publisher)
    requires 0 < policy.maxRecordIds
    ensures Window(Run(NewEngine(policy), steps, publish))
  {
    hide StepOnce, Window;
    if steps == [] {
      EmptyWindow(policy);
    } else {
      WindowOverRuns(policy, steps[..|steps| - 1], publish);
      StepWindow(Run(NewEngine(policy), steps[..|steps| - 1], publish), steps[|steps| - 1], publish);
    }
  }

  lemma EmptyWindow(policy: Policy)
    ensures Window(NewEngine(policy))
  {}

  // ----- the order of accepted records -----

  /** The id that this step accepts, if it accepts a record. */
  ghost function AcceptedBy(s: Engine, step: Step): Option<RecordId>
    requires 0 < s.policy.maxRecordIds
  {
    if step.Apply? && step.input.NewRecord? && Accepts(Clocked(s, step.at), step.input.record, step.at)
    then Some(step.input.record.id) else None
  }

  ghost function WithSource(s: Engine, r: Record, now: U64): (k: Engine)
    ensures r.source.id in k.sources
  { if r.source.id in s.sources then s else RegisterSource(s, r.source, r.id.generation, now) }

  ghost predicate Accepts(s: Engine, r: Record, now: U64) {
    r.id.source == r.source.id && r.id !in s.accepted && Judge(WithSource(s, r, now), r).Accept?
  }

  /** Lexicographic order on (generation, sequence). */
  predicate Earlier(a: RecordId, b: RecordId) {
    a.generation < b.generation || (a.generation == b.generation && a.sequence < b.sequence)
  }

  /** The source has reached at least this record. */
  predicate Reached(sources: map<SourceId, SourceState>, a: RecordId) {
    a.source in sources &&
    (sources[a.source].generation > a.generation
     || (sources[a.source].generation == a.generation && sources[a.source].lastSequence.Some?
         && sources[a.source].lastSequence.value >= a.sequence))
  }

  lemma JudgeIsLater(s: Engine, r: Record, a: RecordId)
    requires Reached(s.sources, a) && r.source.id == a.source && Judge(s, r).Accept?
    ensures Earlier(a, r.id)
  {}

  /** Generation and last sequence of this source are the same. */
  predicate SamePlace(s: Engine, s': Engine, x: SourceId) {
    x in s.sources ==> x in s'.sources && s'.sources[x].generation == s.sources[x].generation
                       && s'.sources[x].lastSequence == s.sources[x].lastSequence
  }

  /** An accepted record leaves its source exactly at that record; every other source stays. */
  lemma RecordMoves(s: Engine, r: Record, now: U64, x: SourceId)
    requires 0 < s.policy.maxRecordIds
    ensures var s' := ApplyRecord(s, r, now);
            if Accepts(s, r, now) && x == r.source.id
            then x in s'.sources && s'.sources[x].generation == r.id.generation && s'.sources[x].lastSequence == Some(r.id.sequence)
            else SamePlace(s, s', x)
  {
    hide RegisterSource, Admit, Judge, ApplyEvents, MakeRoom;
    if r.id.source == r.source.id && r.id !in s.accepted {
      var known := WithSource(s, r, now);
      RegisterElsewhere(s, r.source, r.id.generation, now, x);
      RegisterSameWindow(s, r.source, r.id.generation, now);
      if Judge(known, r).Accept? {
        var a := Admit(known, r, now, Judge(known, r).gap);
        AdmitPlaces(known, r, now, Judge(known, r).gap, x);
        RoomSameSources(a, r);
        if Usable(a, r) {
          CombatBarrier.EventsAppend(MakeRoom(a, r), r, r.eqTime.value, now, |r.events|);
          SameSourcesSamePlace(MakeRoom(a, r), ApplyRecord(s, r, now), x);
        }
      }
    }
  }

  lemma RegisterElsewhere(s: Engine, source: LogSource, generation: U64, now: U64, x: SourceId)
    ensures x != source.id || x !in s.sources ==> SamePlace(s, RegisterSource(s, source, generation, now), x)
  {}

  lemma AdmitPlaces(s: Engine, r: Record, now: U64, gap: Option<GapReason>, x: SourceId)
    requires r.source.id in s.sources && 0 < s.policy.maxRecordIds
    ensures var a := Admit(s, r, now, gap);
            if x == r.source.id then a.sources[x].generation == r.id.generation && a.sources[x].lastSequence == Some(r.id.sequence)
            else SamePlace(s, a, x)
  { hide GapSource; }

  lemma RoomSameSources(s: Engine, r: Record)
    ensures MakeRoom(s, r).sources == s.sources
  {}

  lemma SameSourcesSamePlace(s: Engine, s': Engine, x: SourceId)
    requires CombatBarrier.SameSources(s, s')
    ensures SamePlace(s, s', x)
  {
    if x in s.sources { assert CombatBarrier.SameProgress(s.sources[x], s'.sources[x]); }
  }

  /** The step neither registers the source nor reports a gap for it. */
  predicate Undisturbed(step: Step, x: SourceId) {
    step.Apply? ==> !(step.input.Registered? && step.input.source.id == x)
                    && !(step.input.Gap? && step.input.sourceId == x)
  }

  lemma StepMoves(s: Engine, step: Step, publish: Publisher, x: SourceId)
    requires 0 < s.policy.maxRecordIds && Undisturbed(step, x)
    ensures var s' := StepOnce(s, step, publish);
            if AcceptedBy(s, step).Some? && AcceptedBy(s, step).value.source == x
            then x in s'.sources && s'.sources[x].generation == AcceptedBy(s, step).value.generation
                 && s'.sources[x].lastSequence == Some(AcceptedBy(s, step).value.sequence)
            else SamePlace(s, s', x)
  {
    hide ApplyRecord, RegisterSource, AdvanceTime, Accepts, RemoveSource, MarkGap, NoteStableEof;
    var c := Clocked(s, step.at);
    if step.Apply? {
      match step.input {
        case NewRecord(r) => RecordMoves(c, r, step.at, x); AcceptedSource(c, r, step.at);
        case Registered(source, generation) => RegisterElsewhere(c, source, generation, step.at, x);
        case Removed(y) => OthersSamePlace(c, y, 0, FileRecreated, step.at, x);
        case Gap(y, generation, reason) => OthersSamePlace(c, y, generation, reason, step.at, x);
        case StableEof(y, generation) => OthersSamePlace(c, y, generation, FileRecreated, step.at, x);
      }
    }
    TimeSamePlace(Changed(s, step), Max(s.now, step.at), publish, x);
  }

  lemma OthersSamePlace(s: Engine, y: SourceId, generation: U64, reason: GapReason, at: U64, x: SourceId)
    ensures SamePlace(s, RemoveSource(s, y), x) && SamePlace(s, NoteStableEof(s, y, generation, at), x)
    ensures x != y ==> SamePlace(s, MarkGap(s, y, generation, reason), x)
  { hide MarkPartial; }

  lemma AcceptedSource(s: Engine, r: Record, now: U64)
    ensures Accepts(s, r, now) ==> r.id.source == r.source.id
  {}

  lemma TimeSamePlace(s: Engine, now: U64, publish: Publisher, x: SourceId)
    ensures SamePlace(s, AdvanceTime(s, now, publish), x)
  { hide Advanced; }

  /** What a source has reached stays reached, and a later acceptance is strictly later. */
  lemma StepStaysReached(s: Engine, step: Step, publish: Publisher, a: RecordId)
    requires 0 < s.policy.maxRecordIds && Undisturbed(step, a.source) && Reached(s.sources, a)
    ensures Reached(StepOnce(s, step, publish).sources, a)
    ensures AcceptedBy(s, step).Some? && AcceptedBy(s, step).value.source == a.source ==>
              Earlier(a, AcceptedBy(s, step).value)
  {
    hide StepOnce, Judge;
    StepMoves(s, step, publish, a.source);
    if AcceptedBy(s, step).Some? && AcceptedBy(s, step).value.source == a.source {
      JudgeIsLater(Clocked(s, step.at), step.input.record, a);
    }
  }

  lemma {:induction false} ReachedFrom(s: Engine, steps: seq<Step>, publish: Publisher, j: nat, k: nat, a: RecordId)
    requires 0 < s.policy.maxRecordIds && j < k <= |steps|
    requires AcceptedBy(Run(s, steps[..j], publish), steps[j]) == Some(a)
    requires forall i | j < i < k :: Undisturbed(steps[i], a.source)
    ensures Reached(Run(s, steps[..k], publish).sources, a)
    decreases k
  {
    hide StepOnce, Run, AcceptedBy;
    RunStep(s, steps, publish, k - 1);
    if j == k - 1 {
      AcceptingUndisturbed(Run(s, steps[..j], publish), steps[j], a.source);
      StepMoves(Run(s, steps[..j], publish), steps[j], publish, a.source);
    } else {
      ReachedFrom(s, steps, publish, j, k - 1, a);
      StepStaysReached(Run(s, steps[..k - 1], publish), steps[k - 1], publish, a);
    }
  }

  lemma AcceptingUndisturbed(s: Engine, step: Step, x: SourceId)
    requires 0 < s.policy.maxRecordIds && AcceptedBy(s, step).Some?
    ensures Undisturbed(step, x)
  {}

  /** Between two registrations or gaps, a source's accepted records strictly increase,
      so no record is applied twice, however small the window of ids. */
  lemma AcceptedRecordsIncrease(s: Engine, steps: seq<Step>, publish: Publisher, j: nat, k: nat, a: RecordId, b: RecordId)
    requires 0 < s.policy.maxRecordIds && j < k < |steps| && a.source == b.source
    requires AcceptedBy(Run(s, steps[..j], publish), steps[j]) == Some(a)
    requires AcceptedBy(Run(s, steps[..k], publish), steps[k]) == Some(b)
    requires forall i | j < i < k :: Undisturbed(steps[i], a.source)
    ensures Earlier(a, b) && a != b
  {
    hide StepOnce, Run, AcceptedBy;
    ReachedFrom(s, steps, publish, j, k, a);
    AcceptingUndisturbed(Run(s, steps[..k], publish), steps[k], a.source);
    StepStaysReached(Run(s, steps[..k], publish), steps[k], publish, a);
  }
}
