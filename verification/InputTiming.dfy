/** Targeted input in time: callbacks that list every active input, spaced by the longest
    delay, answer a command after a bounded number, whatever happens in between. */
module InputTiming {
  import opened Foundations
  import opened KeySequencer
  import opened InputDelivery
  import opened InputDeliverySafety
  import opened InputProgress
  import opened SingleInputs

  /** The clock does not go back. */
  predicate Monotone(worlds: seq<World>) { forall i, j | 0 <= i < j < |worlds| :: worlds[i].now <= worlds[j].now }

  /** A timer callback as the code makes it: over every active input. */
  ghost predicate FullCallback(h: Hub, step: Step) { step.Advanced? && forall pid | pid in h.active :: pid in step.order }

  /** The k-th of the chosen steps, or else the time `from`. */
  function TimeBefore(worlds: seq<World>, at: seq<nat>, from: nat, k: nat): nat
    requires k <= |at| && forall i | 0 <= i < |at| :: at[i] < |worlds|
  { if k == 0 then from else worlds[at[k - 1]].now }

  /** The chosen steps, in order and from `start` on, are full callbacks, each at least `d`
      after the one before it and the first at least `d` after `from`. */
  ghost predicate WellSpaced(worlds: seq<World>, steps: seq<Step>, start: nat, at: seq<nat>, from: nat, d: nat)
    requires |worlds| == |steps|
  {
    (forall k | 0 <= k < |at| :: start <= at[k] < |steps|) && (forall i, k | 0 <= i < k < |at| :: at[i] < at[k])
    && forall k | 0 <= k < |at| :: SpacedAt(worlds, steps, at, from, d, k)
  }

  ghost predicate SpacedAt(worlds: seq<World>, steps: seq<Step>, at: seq<nat>, from: nat, d: nat, k: nat)
    requires |worlds| == |steps| && k < |at| && forall i | 0 <= i < |at| :: at[i] < |steps|
  {
    FullCallback(Run(worlds[..at[k]], steps[..at[k]]), steps[at[k]]) && worlds[at[k]].now >= TimeBefore(worlds, at, from, k) + d
  }

  /** The input's steps are at most `d` apart, and the next one is at most `d` after `now`. */
  ghost predicate DueSoon(active: map<Pid, ActiveInput>, c: Completion, pid: Pid, now: nat, d: nat) {
    Carries(active, pid, c) ==>
      LongestDelay(active[pid].sequence.strokes) <= d && active[pid].sequence.nextStep <= now + d
  }

  lemma StepDueSoon(h: Hub, w: World, step: Step, c: Completion, pid: Pid, now: nat, d: nat)
    requires Allowed(h, step) && Given(h, c) && DueSoon(h.active, c, pid, now, d)
    ensures var t := StepOnce(h, w, step).active;
            (now <= w.now ==> DueSoon(t, c, pid, w.now, d)) && (!Ripe(h, w, step, c, pid) ==> DueSoon(t, c, pid, now, d))
  {
    hide StepOnce, Ripe, StepsLeft, Allowed, Given, LongestDelay;
    InputMoves(h, w, step, c, pid);
  }

  /** After so many spaced callbacks: at least as many were ripe for the input, and one more
      was, or the input's next step is due within `d` of the last of them. */
  ghost predicate KeepsUp(worlds: seq<World>, steps: seq<Step>, start: nat, c: Completion, pid: Pid, at: seq<nat>, from: nat, d: nat)
    requires |worlds| == |steps| && start <= |steps| && forall k | 0 <= k < |at| :: at[k] < |steps|
  {
    var active, count := Run(worlds, steps).active, RipeCount(worlds, steps, start, c, pid);
    count >= |at| && DueSoon(active, c, pid, LastTime(worlds, start, from), d)
    && (count > |at| || DueSoon(active, c, pid, TimeBefore(worlds, at, from, |at|), d))
  }

  function LastTime(worlds: seq<World>, start: nat, from: nat): nat {
    if |worlds| <= start then from else worlds[|worlds| - 1].now
  }

  /** One more step, spaced or not. */
  lemma StepKept(h: Hub, w: World, step: Step, c: Completion, pid: Pid, count: nat, n: nat, last: nat, before: nat, d: nat)
    requires Allowed(h, step) && Given(h, c) && last <= w.now && before <= last
    requires count >= n && DueSoon(h.active, c, pid, last, d) && (count > n || DueSoon(h.active, c, pid, before, d))
    ensures var t := StepOnce(h, w, step).active; var more := count + if Ripe(h, w, step, c, pid) then 1 else 0;
            DueSoon(t, c, pid, w.now, d)
            && (more > n || DueSoon(t, c, pid, before, d))
            && (FullCallback(h, step) && w.now >= before + d ==> more >= n + 1)
  {
    hide StepOnce, LongestDelay, Allowed, Given;
    StepDueSoon(h, w, step, c, pid, last, d);
    if count == n { StepDueSoon(h, w, step, c, pid, before, d); }
  }

  /** WellSpaced callbacks before the last step. */
  lemma SpacedBefore(worlds: seq<World>, steps: seq<Step>, start: nat, at: seq<nat>, from: nat, d: nat, n: nat)
    requires |worlds| == |steps| && n <= |steps| && WellSpaced(worlds, steps, start, at, from, d) && forall k | 0 <= k < |at| :: at[k] < n
    ensures WellSpaced(worlds[..n], steps[..n], start, at, from, d)
    ensures TimeBefore(worlds[..n], at, from, |at|) == TimeBefore(worlds, at, from, |at|)
  {
    hide SpacedAt;
    forall k | 0 <= k < |at| ensures SpacedAt(worlds[..n], steps[..n], at, from, d, k) {
      SameSpacing(worlds, steps, at, from, d, n, k);
    }
  }

  lemma SameSpacing(worlds: seq<World>, steps: seq<Step>, at: seq<nat>, from: nat, d: nat, n: nat, k: nat)
    requires |worlds| == |steps| && n <= |steps| && k < |at| && forall i | 0 <= i < |at| :: at[i] < n
    requires SpacedAt(worlds, steps, at, from, d, k)
    ensures SpacedAt(worlds[..n], steps[..n], at, from, d, k)
  {
    hide Run, FullCallback;
    assert worlds[..n][..at[k]] == worlds[..at[k]] && steps[..n][..at[k]] == steps[..at[k]];
  }

  lemma SpacedDropLast(worlds: seq<World>, steps: seq<Step>, start: nat, at: seq<nat>, from: nat, d: nat)
    requires |worlds| == |steps| && at != [] && WellSpaced(worlds, steps, start, at, from, d)
    ensures WellSpaced(worlds, steps, start, at[..|at| - 1], from, d)
    ensures TimeBefore(worlds, at[..|at| - 1], from, |at| - 1) == TimeBefore(worlds, at, from, |at| - 1)
  {
    hide SpacedAt;
    var less := at[..|at| - 1];
    forall k | 0 <= k < |less| ensures SpacedAt(worlds, steps, less, from, d, k) { SpacedAtPrefix(worlds, steps, at, from, d, k); }
  }

  lemma SpacedAtPrefix(worlds: seq<World>, steps: seq<Step>, at: seq<nat>, from: nat, d: nat, k: nat)
    requires |worlds| == |steps| && k < |at| - 1 && (forall i | 0 <= i < |at| :: at[i] < |steps|) && SpacedAt(worlds, steps, at, from, d, k)
    ensures SpacedAt(worlds, steps, at[..|at| - 1], from, d, k)
  { hide Run, FullCallback; }

  predicate NotBefore(worlds: seq<World>, start: nat, from: nat) { forall i | start <= i < |worlds| :: from <= worlds[i].now }

  lemma TimesGrow(worlds: seq<World>, start: nat, at: seq<nat>, from: nat)
    requires Monotone(worlds) && NotBefore(worlds, start, from) && (forall k | 0 <= k < |at| :: start <= at[k] < |worlds|)
    ensures TimeBefore(worlds, at, from, |at|) <= LastTime(worlds, start, from)
  {
    if at != [] { assert at[|at| - 1] < |worlds| - 1 ==> worlds[at[|at| - 1]].now <= worlds[|worlds| - 1].now; }
  }

  lemma TimesBefore(worlds: seq<World>, start: nat, from: nat)
    requires start < |worlds| && Monotone(worlds) && NotBefore(worlds, start, from)
    ensures var m := |worlds| - 1;
            Monotone(worlds[..m]) && NotBefore(worlds[..m], start, from) && LastTime(worlds[..m], start, from) <= worlds[m].now
  {}

  /** Every spaced callback comes with a ripe one of its own for each input. */
  lemma {:induction false} SpacedKeeps(worlds: seq<World>, steps: seq<Step>, start: nat, c: Completion, pid: Pid, at: seq<nat>, from: nat, d: nat)
    requires |worlds| == |steps| && start <= |steps| && AllAllowed(worlds, steps) && GivenSince(worlds, steps, start, c)
    requires Monotone(worlds) && NotBefore(worlds, start, from) && WellSpaced(worlds, steps, start, at, from, d)
    requires DueSoon(Run(worlds[..start], steps[..start]).active, c, pid, from, d)
    ensures KeepsUp(worlds, steps, start, c, pid, at, from, d)
    decreases |steps|
  {
    hide Run, KeepsUp, AllAllowed, GivenSince, Given, Allowed, DueSoon, Monotone, NotBefore, WellSpaced;
    if start == |steps| {
      NothingChosen(worlds, steps, start, c, pid, at, from, d);
    } else {
      var m := |steps| - 1;
      AllowedBefore(worlds, steps);
      GivenBefore(worlds, steps, start, c);
      TimesBefore(worlds, start, from);
      assert worlds[..m][..start] == worlds[..start] && steps[..m][..start] == steps[..start];
      LastChosen(worlds, steps, start, at, from, d);
      SpacedKeeps(worlds[..m], steps[..m], start, c, pid, EarlierOnes(at, m), from, d);
      KeptStep(worlds, steps, start, c, pid, at, from, d);
    }
  }

  function Chosen(at: seq<nat>, m: nat): bool { at != [] && at[|at| - 1] == m }

  function EarlierOnes(at: seq<nat>, m: nat): seq<nat> { if Chosen(at, m) then at[..|at| - 1] else at }

  lemma NothingChosen(worlds: seq<World>, steps: seq<Step>, start: nat, c: Completion, pid: Pid, at: seq<nat>, from: nat, d: nat)
    requires |worlds| == |steps| == start && WellSpaced(worlds, steps, start, at, from, d)
    requires DueSoon(Run(worlds[..start], steps[..start]).active, c, pid, from, d)
    ensures KeepsUp(worlds, steps, start, c, pid, at, from, d)
  {
    hide Run, DueSoon, WellSpaced;
    assert worlds[..start] == worlds && steps[..start] == steps;
    SpacedInside(worlds, steps, start, at, from, d);
  }

  lemma KeptStep(worlds: seq<World>, steps: seq<Step>, start: nat, c: Completion, pid: Pid, at: seq<nat>, from: nat, d: nat)
    requires |worlds| == |steps| && start < |steps| && Monotone(worlds) && NotBefore(worlds, start, from)
    requires WellSpaced(worlds, steps, start, at, from, d)
    requires var m := |steps| - 1; var h := Run(worlds[..m], steps[..m]);
             Allowed(h, steps[m]) && Given(h, c) && WellSpaced(worlds[..m], steps[..m], start, EarlierOnes(at, m), from, d)
             && KeepsUp(worlds[..m], steps[..m], start, c, pid, EarlierOnes(at, m), from, d)
    ensures KeepsUp(worlds, steps, start, c, pid, at, from, d)
  {
    hide StepOnce, Given, Allowed, DueSoon, Monotone, NotBefore, FullCallback, Ripe, WellSpaced;
    var m := |steps| - 1;
    var less := EarlierOnes(at, m);
    TimesBefore(worlds, start, from);
    LastChosen(worlds, steps, start, at, from, d);
    SpacedInside(worlds, steps, start, at, from, d);
    SpacedInside(worlds[..m], steps[..m], start, less, from, d);
    TimesGrow(worlds[..m], start, less, from);
    StepKept(Run(worlds[..m], steps[..m]), worlds[m], steps[m], c, pid, RipeCount(worlds[..m], steps[..m], start, c, pid), |less|,
             LastTime(worlds[..m], start, from), TimeBefore(worlds[..m], less, from, |less|), d);
  }

  lemma SpacedInside(worlds: seq<World>, steps: seq<Step>, start: nat, at: seq<nat>, from: nat, d: nat)
    requires |worlds| == |steps| && WellSpaced(worlds, steps, start, at, from, d)
    ensures forall k | 0 <= k < |at| :: start <= at[k] < |steps|
    ensures at != [] ==> start < |steps|
  { if at != [] { assert start <= at[0] < |steps|; } }

  lemma LastChosen(worlds: seq<World>, steps: seq<Step>, start: nat, at: seq<nat>, from: nat, d: nat)
    requires |worlds| == |steps| && start < |steps| && WellSpaced(worlds, steps, start, at, from, d)
    ensures var m := |steps| - 1; var less := EarlierOnes(at, m);
            WellSpaced(worlds[..m], steps[..m], start, less, from, d)
            && (Chosen(at, m) ==> FullCallback(Run(worlds[..m], steps[..m]), steps[m]))
            && (Chosen(at, m) ==> worlds[m].now >= TimeBefore(worlds[..m], less, from, |less|) + d)
            && (!Chosen(at, m) ==> TimeBefore(worlds[..m], less, from, |less|) == TimeBefore(worlds, at, from, |at|))
  {
    hide Run, FullCallback, SpacedAt;
    var m := |steps| - 1;
    if Chosen(at, m) {
      SpacedDropLast(worlds, steps, start, at, from, d);
      SpacedBefore(worlds, steps, start, at[..|at| - 1], from, d, m);
      SpacedLast(worlds, steps, at, from, d);
    } else {
      forall k | 0 <= k < |at| ensures at[k] < m { assert k < |at| - 1 ==> at[k] < at[|at| - 1]; }
      SpacedBefore(worlds, steps, start, at, from, d, m);
    }
  }

  lemma SpacedLast(worlds: seq<World>, steps: seq<Step>, at: seq<nat>, from: nat, d: nat)
    requires |worlds| == |steps| && at != [] && (forall i | 0 <= i < |at| :: at[i] < |steps|) && SpacedAt(worlds, steps, at, from, d, |at| - 1)
    ensures var k := |at| - 1;
            FullCallback(Run(worlds[..at[k]], steps[..at[k]]), steps[at[k]]) && worlds[at[k]].now >= TimeBefore(worlds, at, from, k) + d
  {}

  /** As many spaced callbacks, as many ripe ones for each input. */
  lemma SpacedAreRipe(worlds: seq<World>, steps: seq<Step>, start: nat, c: Completion, pid: Pid, at: seq<nat>, from: nat, d: nat)
    requires |worlds| == |steps| && start <= |steps| && AllAllowed(worlds, steps) && GivenSince(worlds, steps, start, c)
    requires Monotone(worlds) && NotBefore(worlds, start, from) && WellSpaced(worlds, steps, start, at, from, d)
    requires DueSoon(Run(worlds[..start], steps[..start]).active, c, pid, from, d)
    ensures RipeCount(worlds, steps, start, c, pid) >= |at|
  {
    hide Run, RipeCount, AllAllowed, GivenSince, DueSoon, Monotone, NotBefore, FullCallback;
    SpacedKeeps(worlds, steps, start, c, pid, at, from, d);
  }

  lemma StartIsEarliest(worlds: seq<World>, start: nat)
    requires start < |worlds| && Monotone(worlds)
    ensures NotBefore(worlds, start + 1, worlds[start].now)
  {}

  /** A batch started at step `start` is answered after five callbacks over every active
      input, at least `d` apart, `d` being no shorter than any delay of its members. */
  lemma SpacedCallbacksAnswerBatch(worlds: seq<World>, steps: seq<Step>, start: nat, at: seq<nat>, d: nat)
    requires |worlds| == |steps| && start < |steps| && AllAllowed(worlds, steps) && Monotone(worlds) && steps[start].BatchStarted?
    requires Run(worlds[..start], steps[..start]).nextBatch < Run(worlds[..start + 1], steps[..start + 1]).nextBatch
    requires forall i | start < i < |steps| :: !steps[i].Stopped? && steps[start].requester in worlds[i].open
    requires forall i | 0 <= i < |steps[start].members| :: LongestDelay([steps[start].members[i].stroke]) <= d
    requires |at| >= 5 && WellSpaced(worlds, steps, start + 1, at, worlds[start].now, d)
    ensures BatchOver(Run(worlds, steps), Run(worlds[..start + 1], steps[..start + 1]).nextBatch, steps[start].requester)
  {
    hide Run, AllAllowed, BatchOver, RipeCount, StepsLeft, Begun, WellSpaced, Monotone, NotBefore, LongestDelay, GivenSince;
    BatchStart(worlds, steps, start);
    var t, from := Run(worlds[..start + 1], steps[..start + 1]), worlds[start].now;
    StartIsEarliest(worlds, start);
    BatchIsGiven(worlds, steps, start + 1, t.nextBatch);
    forall pid | Carries(t.active, pid, Batch(t.nextBatch)) ensures RipeCount(worlds, steps, start + 1, Batch(t.nextBatch), pid) >= 5 {
      BegunTimely(steps[start].members, from, t.active[pid].sequence, d);
      SpacedAreRipe(worlds, steps, start + 1, Batch(t.nextBatch), pid, at, from, d);
    }
    StartedBatchIsAnswered(worlds, steps, start);
  }

  lemma BegunTimely(members: seq<Member>, now: nat, q: Running, d: nat)
    requires Begun(members, now, q) && forall i | 0 <= i < |members| :: LongestDelay([members[i].stroke]) <= d
    ensures LongestDelay(q.strokes) <= d && q.nextStep <= now + d
  {
    var i :| 0 <= i < |members| && BegunBy(members[i], now, q);
    assert LongestDelay([members[i].stroke]) <= d;
  }

  /** A single input of n strokes is answered after 4n + 1 of them. */
  lemma SpacedCallbacksAnswerSingle(worlds: seq<World>, steps: seq<Step>, start: nat, at: seq<nat>, d: nat)
    requires |worlds| == |steps| && start < |steps| && AllAllowed(worlds, steps) && Monotone(worlds) && steps[start].SingleStarted?
    requires steps[start].requester in worlds[start].open && LongestDelay(steps[start].strokes) <= d
    requires forall i | start < i < |steps| :: !steps[i].Stopped? && steps[start].requester in worlds[i].open
    requires |at| > 4 * |steps[start].strokes| && WellSpaced(worlds, steps, start + 1, at, worlds[start].now, d)
    ensures SingleOver(Run(worlds, steps), steps[start].requester)
    ensures OkReply(Run(worlds, steps).log, steps[start].requester) <==> DeliveredIn(worlds, steps, start + 1, steps[start].requester)
  {
    hide Run, AllAllowed, SingleOver, RipeCount, WellSpaced, Monotone, NotBefore, LongestDelay, GivenSince, AnsweredOrActive, OkReply, DeliveredIn;
    SingleStart(worlds, steps, start);
    var q, from := steps[start].requester, worlds[start].now;
    StartIsEarliest(worlds, start);
    SingleIsGiven(worlds, steps, start + 1, q);
    SpacedAreRipe(worlds, steps, start + 1, Single(q), steps[start].pid, at, from, d);
    StartedSingleIsAnswered(worlds, steps, start);
  }
}
