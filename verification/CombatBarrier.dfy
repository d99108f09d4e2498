/** The closed-second barrier: a second that a source has closed, or that lies
    under its history floor, never receives another fact from that source. */
module CombatBarrier {
  import opened Foundations
  import opened CombatModel
  import opened CombatSteps

  /** The later of the history floor and the closed-through second. */
  function BarrierOf(st: SourceState): Option<EqSecond> { MaxOpt(st.historyFloor, st.closedThrough) }

  function Barrier(s: Engine, x: SourceId): Option<EqSecond> {
    if x in s.sources then BarrierOf(s.sources[x]) else None
  }

  ghost predicate BarriersGrow(s: Engine, s': Engine) {
    forall x | x in s.sources :: x in s'.sources && LeOpt(Barrier(s, x), Barrier(s', x))
  }

  predicate Past(barrier: Option<EqSecond>, t: EqSecond) { barrier.Some? ==> barrier.value < t }

  /** Every ledger position of s' either is as it was in s or holds a fact that is
      later than its source's barrier, both before and after. */
  ghost predicate NewFactsPastBarrier(s: Engine, s': Engine) {
    forall i | 0 <= i < |s'.ledger| ::
      (i < |s.ledger| && s'.ledger[i] == s.ledger[i])
      || (Past(Barrier(s, s'.ledger[i].source.id), s'.ledger[i].eqTime)
          && Past(Barrier(s', s'.ledger[i].source.id), s'.ledger[i].eqTime))
  }

  lemma GrowTransitive(a: Engine, b: Engine, c: Engine)
    requires BarriersGrow(a, b) && BarriersGrow(b, c)
    ensures BarriersGrow(a, c)
  {
    forall x | x in a.sources ensures x in c.sources && LeOpt(Barrier(a, x), Barrier(c, x)) {
      assert x in b.sources;
    }
  }

  lemma RegisterGrows(s: Engine, source: LogSource, generation: U64, now: U64)
    ensures BarriersGrow(s, RegisterSource(s, source, generation, now))
    ensures RegisterSource(s, source, generation, now).ledger == s.ledger
  {}

  lemma GapGrows(s: Engine, source: SourceId, generation: U64, reason: GapReason)
    ensures BarriersGrow(s, MarkGap(s, source, generation, reason))
    ensures MarkGap(s, source, generation, reason).ledger == s.ledger
  {}

  /** Closing never undoes, and never reaches the second just observed. */
  lemma ProgressBarrier(st: SourceState, r: Record, now: U64)
    ensures LeOpt(BarrierOf(st), BarrierOf(Progress(st, r, now)))
    ensures Progress(st, r, now).historyFloor == st.historyFloor
    ensures r.eqTime.Some? && Past(BarrierOf(st), r.eqTime.value) ==>
              Past(BarrierOf(Progress(st, r, now)), r.eqTime.value) && Progress(st, r, now).eofPasses == 0
  {}

  /** The gap that the checks choose leaves the record's second past the barrier,
      or under the history floor, where it is ignored. */
  lemma GapBarrier(st: SourceState, r: Record, verdict: Verdict, s: Engine)
    requires r.source.id in s.sources && st == s.sources[r.source.id] && verdict == Judge(s, r) && verdict.Accept?
    ensures var g := Gapped(st, r, verdict.gap);
            LeOpt(BarrierOf(st), BarrierOf(g))
            && (r.eqTime.Some? ==> Past(BarrierOf(g), r.eqTime.value) || !Past(g.historyFloor, r.eqTime.value))
  {}

  function Gapped(st: SourceState, r: Record, gap: Option<GapReason>): SourceState {
    if gap.Some? then GapSource(st, r.id.generation, gap.value) else st
  }

  lemma AdmitSources(s: Engine, r: Record, now: U64, gap: Option<GapReason>)
    requires r.source.id in s.sources && 0 < s.policy.maxRecordIds
    ensures var a := Admit(s, r, now, gap);
            a.ledger == s.ledger
            && a.sources == s.sources[r.source.id := Progress(Gapped(s.sources[r.source.id], r, gap), r, now)]
  {}

  /** What the checks of `apply_record` are for. */
  lemma AdmittedIsPast(s: Engine, r: Record, now: U64)
    requires r.source.id in s.sources && 0 < s.policy.maxRecordIds && Judge(s, r).Accept?
    ensures var a := Admit(s, r, now, Judge(s, r).gap);
            a.ledger == s.ledger && BarriersGrow(s, a)
            && (Usable(a, r) ==> Past(Barrier(a, r.source.id), r.eqTime.value) && a.sources[r.source.id].eofPasses == 0)
  {
    hide Judge, Admit, Progress, GapSource, Gapped;
    var st := s.sources[r.source.id];
    GapBarrier(st, r, Judge(s, r), s);
    ProgressBarrier(Gapped(st, r, Judge(s, r).gap), r, now);
    AdmitSources(s, r, now, Judge(s, r).gap);
  }

  predicate SameProgress(a: SourceState, b: SourceState) { b == a.(zone := b.zone) }

  ghost predicate SameSources(a: Engine, b: Engine) {
    b.sources.Keys == a.sources.Keys && forall x | x in a.sources :: SameProgress(a.sources[x], b.sources[x])
  }

  /** b's ledger is a's followed by facts of this record. */
  ghost predicate Appends(a: Engine, b: Engine, r: Record, t: EqSecond, now: U64) {
    |a.ledger| <= |b.ledger| && b.ledger[..|a.ledger|] == a.ledger
    && forall i | |a.ledger| <= i < |b.ledger| ::
         b.ledger[i].source == r.source && b.ledger[i].eqTime == t && b.ledger[i].receipt == now
  }

  lemma EventAppends(s: Engine, r: Record, t: EqSecond, now: U64, event: LogEvent)
    ensures SameSources(s, ApplyEvent(s, r, t, now, event))
    ensures Appends(s, ApplyEvent(s, r, t, now, event), r, t, now)
  { hide ProcessFact; }

  lemma AppendsTwice(a: Engine, b: Engine, c: Engine, r: Record, t: EqSecond, now: U64)
    requires Appends(a, b, r, t, now) && Appends(b, c, r, t, now)
    ensures Appends(a, c, r, t, now)
  {
    assert c.ledger[..|a.ledger|] == c.ledger[..|b.ledger|][..|a.ledger|];
    forall i | |a.ledger| <= i < |c.ledger|
      ensures c.ledger[i].source == r.source && c.ledger[i].eqTime == t && c.ledger[i].receipt == now
    {
      if i < |b.ledger| { assert c.ledger[i] == c.ledger[..|b.ledger|][i] == b.ledger[i]; }
    }
  }

  /** The event loop appends facts of this one second and source, and moves no barrier. */
  lemma {:induction false} EventsAppend(s: Engine, r: Record, t: EqSecond, now: U64, n: nat)
    requires n <= |r.events|
    ensures SameSources(s, ApplyEvents(s, r, t, now, n))
    ensures Appends(s, ApplyEvents(s, r, t, now, n), r, t, now)
  {
    hide ApplyEvent, Appends;
    if n == 0 {
      AppendsNothing(s, r, t, now);
    } else {
      var before := ApplyEvents(s, r, t, now, n - 1);
      EventsAppend(s, r, t, now, n - 1);
      EventAppends(before, r, t, now, r.events[n - 1]);
      AppendsTwice(s, before, ApplyEvents(s, r, t, now, n), r, t, now);
    }
  }

  lemma AppendsNothing(s: Engine, r: Record, t: EqSecond, now: U64)
    ensures Appends(s, s, r, t, now)
  {}

  lemma PreparedBarrier(s: Engine, r: Record, now: U64)
    requires 0 < s.policy.maxRecordIds
    ensures var (p, reached) := Prepare(s, r, now);
            BarriersGrow(s, p) && (p.ledger == s.ledger || p.ledger == [])
            && (reached ==> r.source.id in p.sources && Past(Barrier(p, r.source.id), r.eqTime.value)
                            && p.sources[r.source.id].eofPasses == 0)
  {
    hide Judge, Admit, RegisterSource, Barrier;
    Unmoved(s);
    if !(r.id.source != r.source.id || r.id in s.accepted) {
      var known := if r.source.id in s.sources then s else RegisterSource(s, r.source, r.id.generation, now);
      RegisterGrows(s, r.source, r.id.generation, now);
      RegisterKnows(s, r.source, r.id.generation, now);
      if Judge(known, r).Accept? {
        AdmittedIsPast(known, r, now);
        var a := Admit(known, r, now, Judge(known, r).gap);
        GrowTransitive(s, known, a);
        RoomMovesNoBarrier(s, a, r);
      }
    }
  }

  lemma RoomMovesNoBarrier(s: Engine, a: Engine, r: Record)
    requires BarriersGrow(s, a)
    ensures BarriersGrow(s, MakeRoom(a, r)) && forall x :: Barrier(MakeRoom(a, r), x) == Barrier(a, x)
  {}

  lemma RecordKeepsBarrier(s: Engine, r: Record, now: U64)
    requires 0 < s.policy.maxRecordIds
    ensures BarriersGrow(s, ApplyRecord(s, r, now)) && QuietNewFacts(s, ApplyRecord(s, r, now))
  {
    hide Prepare, ApplyEvents, BarriersGrow, Barrier;
    PreparedBarrier(s, r, now);
    var (p, reached) := Prepare(s, r, now);
    if reached {
      EventsAppend(p, r, r.eqTime.value, now, |r.events|);
      UsableKeepsBarrier(s, p, ApplyRecord(s, r, now), r, now);
    }
  }

  lemma Unmoved(s: Engine)
    ensures BarriersGrow(s, s) && QuietNewFacts(s, s)
  {}

  lemma UsableKeepsBarrier(s: Engine, p: Engine, s': Engine, r: Record, now: U64)
    requires BarriersGrow(s, p) && (p.ledger == s.ledger || p.ledger == []) && r.source.id in p.sources && r.eqTime.Some?
    requires Past(Barrier(p, r.source.id), r.eqTime.value) && p.sources[r.source.id].eofPasses == 0
    requires SameSources(p, s') && Appends(p, s', r, r.eqTime.value, now)
    ensures BarriersGrow(s, s') && QuietNewFacts(s, s')
  {
    forall x | x in s.sources ensures x in s'.sources && LeOpt(Barrier(s, x), Barrier(s', x)) {
      assert x in p.sources;
      assert SameProgress(p.sources[x], s'.sources[x]);
    }
    assert SameProgress(p.sources[r.source.id], s'.sources[r.source.id]);
    assert r.source.id in s.sources ==> LeOpt(Barrier(s, r.source.id), Barrier(p, r.source.id));
    assert forall i | 0 <= i < |p.ledger| :: s'.ledger[i] == s'.ledger[..|p.ledger|][i];
    forall i | 0 <= i < |s'.ledger| && !(i < |s.ledger| && s'.ledger[i] == s.ledger[i])
      ensures QuietlyPast(s, s', s'.ledger[i])
    {
      assert s'.ledger[i].source == r.source;
    }
  }

  /** A new fact is past both barriers and its source cannot close at EOF in the same step. */
  predicate QuietlyPast(s: Engine, s': Engine, fact: LedgerFact) {
    Past(Barrier(s, fact.source.id), fact.eqTime) && Past(Barrier(s', fact.source.id), fact.eqTime)
    && fact.source.id in s'.sources && s'.sources[fact.source.id].eofPasses < 2
  }

  ghost predicate QuietNewFacts(s: Engine, s': Engine) {
    forall i | 0 <= i < |s'.ledger| && !(i < |s.ledger| && s'.ledger[i] == s.ledger[i]) ::
      QuietlyPast(s, s', s'.ledger[i])
  }

  lemma RemovalMovesNoBarrier(s: Engine, source: SourceId)
    ensures BarriersGrow(s, RemoveSource(s, source)) && RemoveSource(s, source).ledger == s.ledger
  { hide MarkPartial; }

  lemma EofNoteMovesNoBarrier(s: Engine, source: SourceId, generation: U64, at: U64)
    ensures BarriersGrow(s, NoteStableEof(s, source, generation, at))
    ensures NoteStableEof(s, source, generation, at).ledger == s.ledger
  {}

  lemma InputKeepsBarrier(s: Engine, at: U64, input: Input)
    requires 0 < s.policy.maxRecordIds
    ensures BarriersGrow(s, ApplyInput(s, at, input)) && QuietNewFacts(s, ApplyInput(s, at, input))
  {
    hide RegisterSource, ApplyRecord, MarkGap, RemoveSource, NoteStableEof, BarriersGrow;
    match input {
      case Registered(source, generation) => RegisterGrows(s, source, generation, at);
      case Removed(source) => RemovalMovesNoBarrier(s, source);
      case Gap(source, generation, reason) => GapGrows(s, source, generation, reason);
      case StableEof(source, generation) => EofNoteMovesNoBarrier(s, source, generation, at);
      case NewRecord(record) => RecordKeepsBarrier(s, record, at);
    }
  }

  lemma TimeKeepsBarrier(s: Engine, now: U64, publish: Publisher)
    ensures var s' := AdvanceTime(s, now, publish);
            BarriersGrow(s, s') && (s'.ledger == s.ledger || s'.ledger == [])
            && forall x | x in s.sources && s.sources[x].eofPasses < 2 :: Barrier(s', x) == Barrier(s, x)
  { hide Advanced; }

  lemma StepKeepsBarrier(s: Engine, step: Step, publish: Publisher)
    requires 0 < s.policy.maxRecordIds
    ensures BarriersGrow(s, StepOnce(s, step, publish))
    ensures NewFactsPastBarrier(s, StepOnce(s, step, publish))
  {
    hide AdvanceTime, ApplyInput, Barrier;
    var c := Clocked(s, step.at);
    var changed := Changed(s, step);
    ClockMovesNoBarrier(s, step.at);
    if step.Apply? { InputKeepsBarrier(c, step.at, step.input); } else { Unmoved(c); }
    GrowTransitive(s, c, changed);
    TimeKeepsBarrier(changed, Max(s.now, step.at), publish);
    GrowTransitive(s, changed, StepOnce(s, step, publish));
  }

  lemma ClockMovesNoBarrier(s: Engine, at: U64)
    ensures BarriersGrow(s, Clocked(s, at)) && forall x :: Barrier(Clocked(s, at), x) == Barrier(s, x)
  {}

  /** No source's barrier ever decreases, over any run from any state. */
  lemma {:induction false} BarriersGrowOverRuns(s: Engine, steps: seq<Step>, publish: Publisher, j: nat, k: nat)
    requires 0 < s.policy.maxRecordIds && j <= k <= |steps|
    ensures BarriersGrow(Run(s, steps[..j], publish), Run(s, steps[..k], publish))
    decreases k
  {
    hide *;
    if j == k {
      Unmoved(Run(s, steps[..k], publish));
    } else {
      BarriersGrowOverRuns(s, steps, publish, j, k - 1);
      RunStep(s, steps, publish, k - 1);
      StepKeepsBarrier(Run(s, steps[..k - 1], publish), steps[k - 1], publish);
      GrowTransitive(Run(s, steps[..j], publish), Run(s, steps[..k - 1], publish), Run(s, steps[..k], publish));
    }
  }

  /** Position i of the later ledger holds a fact that was not there before. */
  ghost predicate EntersAt(before: Engine, after: Engine, i: nat) {
    i < |after.ledger| && !(i < |before.ledger| && after.ledger[i] == before.ledger[i])
  }

  ghost predicate PastBarrierOf(s: Engine, after: Engine, i: nat) {
    i < |after.ledger| && Past(Barrier(s, after.ledger[i].source.id), after.ledger[i].eqTime)
  }

  /** Every fact that enters between `before` and `after` is past its source's
      barrier of the state `at` and of the state `after`. */
  ghost predicate EntrantsPast(at: Engine, before: Engine, after: Engine) {
    forall i: nat | EntersAt(before, after, i) :: PastBarrierOf(at, after, i) && PastBarrierOf(after, after, i)
  }

  lemma EntrantsPastEarlier(at: Engine, before: Engine, after: Engine)
    requires BarriersGrow(at, before) && NewFactsPastBarrier(before, after)
    ensures EntrantsPast(at, before, after)
  {
    forall i: nat | EntersAt(before, after, i) ensures PastBarrierOf(at, after, i) && PastBarrierOf(after, after, i) {
      var id := after.ledger[i].source.id;
      assert id in at.sources ==> LeOpt(Barrier(at, id), Barrier(before, id));
    }
  }

  /** A fact that enters the ledger at step k is later than every barrier its
      source has had up to and including that step. */
  lemma FactsPassEveryEarlierBarrier(s: Engine, steps: seq<Step>, publish: Publisher, j: nat, k: nat)
    requires 0 < s.policy.maxRecordIds && j <= k < |steps|
    ensures EntrantsPast(Run(s, steps[..j], publish), Run(s, steps[..k], publish), Run(s, steps[..k + 1], publish))
  {
    hide *;
    var at, before, after := Run(s, steps[..j], publish), Run(s, steps[..k], publish), Run(s, steps[..k + 1], publish);
    RunStep(s, steps, publish, k);
    StepKeepsBarrier(before, steps[k], publish);
    BarriersGrowOverRuns(s, steps, publish, j, k);
    EntrantsPastEarlier(at, before, after);
  }
}
