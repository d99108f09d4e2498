/** Targeted input gets done: every due timer callback brings an input nearer to its end,
    so a listening requester is answered after a bounded number of them. */
module InputProgress {
  import opened Foundations
  import opened KeySequencer
  import opened InputDelivery
  import opened InputDeliverySafety

  /** The target's input belongs to this command. */
  predicate Carries(active: map<Pid, ActiveInput>, pid: Pid, c: Completion) { pid in active && active[pid].completion == c }

  /** The command's input on this target, if any, has fewer than n due steps before its Finish. */
  ghost predicate NearEnd(active: map<Pid, ActiveInput>, c: Completion, pid: Pid, n: nat) {
    Carries(active, pid, c) ==> StepsLeft(active[pid].sequence) < n
  }

  /** A timer callback that finds the command's input on this target gone, or takes a step of it. */
  ghost predicate Ripe(h: Hub, w: World, step: Step, c: Completion, pid: Pid) {
    step.Advanced? && (Carries(h.active, pid, c) ==> pid in step.order && w.now >= h.active[pid].sequence.nextStep)
  }

  // ----- one callback -----

  /** The longest wait between two steps of these strokes. */
  function LongestDelay(strokes: seq<Stroke>): (d: nat)
    ensures d >= ACTIVATION_DELAY && forall i | 0 <= i < |strokes| :: strokes[i].hold <= d && strokes[i].pause <= d
  {
    if strokes == [] then ACTIVATION_DELAY
    else
      var rest := LongestDelay(strokes[1..]);
      assert forall i | 0 < i < |strokes| :: strokes[i] == strokes[1..][i - 1];
      Max(Max(strokes[0].hold, strokes[0].pause), rest)
  }

  /** Due, and taken on by at least one step; the next one is not further off than the
      longest delay, and the last one is not due at once. */
  ghost predicate Moved(before: ActiveInput, after: ActiveInput, now: nat) {
    now >= before.sequence.nextStep && after.completion == before.completion
    && after.sequence.strokes == before.sequence.strokes && StepsLeft(after.sequence) < StepsLeft(before.sequence)
    && after.sequence.nextStep <= now + LongestDelay(after.sequence.strokes)
    && (after.sequence.phase.Finish? ==> now < after.sequence.nextStep)
  }

  lemma OneMove(input: ActiveInput, now: nat)
    requires now >= input.sequence.nextStep && !input.sequence.phase.Finish?
    ensures Moved(input, input.(sequence := NextPhase(input.sequence, now)), now)
  {
    hide Chord, StepsLeft;
    StepCounts(input.sequence, now);
  }

  /** Nothing comes back; untouched inputs stay; touched ones end, move on or, if not due, stay. */
  ghost predicate Progressed(before: map<Pid, ActiveInput>, after: map<Pid, ActiveInput>, done: seq<Pid>, now: nat) {
    (forall p | p in before && p !in done :: p in after)
    && forall p | p in after ::
         p in before && (after[p] == before[p] || (p in done && Moved(before[p], after[p], now)))
         && (p in done && now >= before[p].sequence.nextStep ==> after[p] != before[p])
  }

  lemma FinishRemoves(h: Hub, w: World, pid: Pid, ending: Ending)
    requires pid in h.active
    ensures FinishInput(h, w, pid, ending).active == h.active - {pid}
  { hide Finished; }

  /** One input: gone, not yet due, or exactly one step nearer to its end. */
  lemma AdvanceOneProgress(h: Hub, w: World, pid: Pid)
    requires pid in h.active
    ensures var t := AdvanceOne(h, w, pid).active; var q := h.active[pid].sequence;
            t == h.active - {pid}
            || (t == h.active && w.now < q.nextStep)
            || (t == h.active[pid := h.active[pid].(sequence := NextPhase(q, w.now))] && !q.phase.Finish? && w.now >= q.nextStep)
  {
    hide FinishInput, SetKeys, PhaseScans, NextPhase, Closed;
    FinishRemoves(h, w, pid, Abandoned); FinishRemoves(h, w, pid, Failed); FinishRemoves(h, w, pid, Delivered);
    var q := h.active[pid].sequence;
    var keys := SetKeys(h.keys, pid, PhaseScans(q.strokes[q.index], q.phase), Presses(q.phase)).0;
    FinishRemoves(h.(keys := keys), w, pid, Failed);
  }

  lemma ProgressStep(before: map<Pid, ActiveInput>, h: Hub, w: World, pid: Pid, done: seq<Pid>)
    requires Progressed(before, h.active, done, w.now) && pid in h.active
    ensures Progressed(before, AdvanceOne(h, w, pid).active, done + [pid], w.now)
  {
    hide AdvanceOne, StepsLeft, NextPhase, LongestDelay;
    AdvanceOneProgress(h, w, pid);
    var q := h.active[pid].sequence;
    if !q.phase.Finish? && w.now >= q.nextStep { OneMove(h.active[pid], w.now); }
    var t := AdvanceOne(h, w, pid).active;
    forall p | p in t
      ensures p in before && (t[p] == before[p] || (p in done + [pid] && Moved(before[p], t[p], w.now)))
              && (p in done + [pid] && w.now >= before[p].sequence.nextStep ==> t[p] != before[p]) {
      assert p in h.active;
      MovedTwice(before[p], h.active[p], t[p], w.now);
    }
  }

  lemma MovedTwice(a: ActiveInput, b: ActiveInput, c: ActiveInput, now: nat)
    ensures Moved(a, b, now) && Moved(b, c, now) ==> Moved(a, c, now)
    ensures Moved(a, b, now) ==> a != b
  { hide StepsLeft, LongestDelay; }

  lemma SkipStep(before: map<Pid, ActiveInput>, after: map<Pid, ActiveInput>, pid: Pid, done: seq<Pid>, now: nat)
    requires Progressed(before, after, done, now) && pid !in after
    ensures Progressed(before, after, done + [pid], now)
  { hide Moved; }

  /** One timer callback over the listed inputs. */
  lemma {:induction false} CallbackProgress(h: Hub, w: World, order: seq<Pid>, n: nat)
    requires n <= |order|
    ensures Progressed(h.active, AdvanceAll(h, w, order, n).active, order[..n], w.now)
  {
    if n > 0 {
      hide Progressed, AdvanceOne;
      CallbackProgress(h, w, order, n - 1);
      var g := AdvanceAll(h, w, order, n - 1);
      assert order[..n] == order[..n - 1] + [order[n - 1]];
      if order[n - 1] in g.active {
        ProgressStep(h.active, g, w, order[n - 1], order[..n - 1]);
      } else {
        SkipStep(h.active, g.active, order[n - 1], order[..n - 1], w.now);
      }
    }
  }

  // ----- any step -----

  /** The command has been given: no later step can start anything under its name. */
  ghost predicate Given(h: Hub, c: Completion) {
    match c
    case Single(q) => !Unused(h, q)
    case Batch(id) => id <= h.nextBatch
    case Local => false
  }

  /** No input of the command appears or changes. */
  ghost predicate NoneAdded(before: map<Pid, ActiveInput>, after: map<Pid, ActiveInput>, c: Completion) {
    forall pid | pid in after && after[pid].completion == c :: pid in before && after[pid] == before[pid]
  }

  lemma EnlistedAdds(active: map<Pid, ActiveInput>, more: map<Pid, ActiveInput>, pids: seq<Pid>, id: BatchId, c: Completion)
    requires Enlisted(active, more, pids, id, |pids|) && c != Batch(id)
    ensures NoneAdded(active, more, c)
  { assert pids[..|pids|] == pids; }

  lemma StartBatchAdds(h: Hub, w: World, members: seq<Member>, q: Requester, c: Completion)
    requires h.nextBatch < U64_MAX && Given(h, c)
    ensures NoneAdded(h.active, StartBatch(h, w, members, q).active, c)
  {
    hide Acquire, GiveBack, Enlist, Prepared, Unused, Enlisted, NoneAdded;
    var id := SatAdd(h.nextBatch, 1);
    EnlistLoop(h.active, members, id, w.now, |members|);
    EnlistedAdds(h.active, Enlist(h.active, members, id, w.now, |members|), Pids(members), id, c);
    NoneAddedRefl(h.active, c);
  }

  lemma NoneAddedRefl(active: map<Pid, ActiveInput>, c: Completion)
    ensures NoneAdded(active, active, c)
  {}

  lemma OthersAdd(h: Hub, w: World, step: Step, c: Completion)
    requires Allowed(h, step) && Given(h, c) && !step.Advanced?
    ensures NoneAdded(h.active, StepOnce(h, w, step).active, c)
  {
    hide StartBatch, Finished, Activate, CanBegin, SetBroadcast, ClearBroadcast, FinishTargeted;
    if step.BatchStarted? { StartBatchAdds(h, w, step.members, step.requester, c); }
  }

  /** What a step does to the command's input on one target: it ends, stays as it is, or is
      moved on by a callback that was ripe for it. */
  lemma InputMoves(h: Hub, w: World, step: Step, c: Completion, pid: Pid)
    requires Allowed(h, step) && Given(h, c)
    ensures var t := StepOnce(h, w, step).active;
            Carries(t, pid, c) ==>
              Carries(h.active, pid, c)
              && if Ripe(h, w, step, c, pid) then Moved(h.active[pid], t[pid], w.now) else t[pid] == h.active[pid]
  {
    hide StepsLeft, Allowed, Given, LongestDelay;
    if step.Advanced? {
      CallbackProgress(h, w, step.order, |step.order|);
      assert step.order[..|step.order|] == step.order;
      hide AdvanceAll;
    } else {
      OthersAdd(h, w, step, c);
      hide StepOnce;
    }
  }

  /** No step makes an input longer; a ripe callback makes it shorter or ends it. */
  lemma StepNears(h: Hub, w: World, step: Step, c: Completion, pid: Pid, n: nat)
    requires Allowed(h, step) && Given(h, c) && NearEnd(h.active, c, pid, n)
    ensures NearEnd(StepOnce(h, w, step).active, c, pid, n)
    ensures Ripe(h, w, step, c, pid) && n > 0 ==> NearEnd(StepOnce(h, w, step).active, c, pid, n - 1)
  {
    hide StepOnce, Ripe, StepsLeft, Allowed, Given, LongestDelay;
    InputMoves(h, w, step, c, pid);
  }

  // ----- runs -----

  /** How many of the steps from `start` on are ripe for the command's input on this target. */
  ghost function RipeCount(worlds: seq<World>, steps: seq<Step>, start: nat, c: Completion, pid: Pid): nat
    requires |worlds| == |steps|
  {
    if |steps| <= start then 0
    else
      var n := |steps| - 1;
      RipeCount(worlds[..n], steps[..n], start, c, pid)
      + (if Ripe(Run(worlds[..n], steps[..n]), worlds[n], steps[n], c, pid) then 1 else 0)
  }

  ghost predicate GivenSince(worlds: seq<World>, steps: seq<Step>, start: nat, c: Completion)
    requires |worlds| == |steps|
  { forall k | start <= k <= |steps| :: Given(Run(worlds[..k], steps[..k]), c) }

  lemma GivenBefore(worlds: seq<World>, steps: seq<Step>, start: nat, c: Completion)
    requires |worlds| == |steps| && start < |steps| && GivenSince(worlds, steps, start, c)
    ensures var m := |steps| - 1; GivenSince(worlds[..m], steps[..m], start, c) && Given(Run(worlds[..m], steps[..m]), c)
  {
    hide Run, Given;
    var m := |steps| - 1;
    forall k | start <= k <= m ensures Given(Run(worlds[..m][..k], steps[..m][..k]), c) {
      assert worlds[..m][..k] == worlds[..k] && steps[..m][..k] == steps[..k];
    }
  }

  function Minus(n: nat, done: nat): nat { if n <= done then 0 else n - done }

  /** Each callback that is ripe for the input takes one step off it. */
  lemma {:induction false} RipeCallbacksCount(worlds: seq<World>, steps: seq<Step>, start: nat, c: Completion, pid: Pid, n: nat)
    requires |worlds| == |steps| && start <= |steps| && AllAllowed(worlds, steps) && GivenSince(worlds, steps, start, c)
    requires NearEnd(Run(worlds[..start], steps[..start]).active, c, pid, n)
    ensures NearEnd(Run(worlds, steps).active, c, pid, Minus(n, RipeCount(worlds, steps, start, c, pid)))
    decreases |steps|
  {
    hide NearEnd, Ripe, Given, Allowed, StepOnce, AllAllowed, GivenSince;
    if start == |steps| {
      assert worlds[..start] == worlds && steps[..start] == steps;
    } else {
      var m := |steps| - 1;
      AllowedBefore(worlds, steps);
      GivenBefore(worlds, steps, start, c);
      assert worlds[..m][..start] == worlds[..start] && steps[..m][..start] == steps[..start];
      RipeCallbacksCount(worlds[..m], steps[..m], start, c, pid, n);
      StepNears(Run(worlds[..m], steps[..m]), worlds[m], steps[m], c, pid, Minus(n, RipeCount(worlds[..m], steps[..m], start, c, pid)));
    }
  }

  /** Every input of the command has more ripe callbacks to come than steps to go. */
  ghost predicate EnoughCallbacks(worlds: seq<World>, steps: seq<Step>, start: nat, c: Completion)
    requires |worlds| == |steps| && start <= |steps|
  {
    var active := Run(worlds[..start], steps[..start]).active;
    forall pid | Carries(active, pid, c) :: StepsLeft(active[pid].sequence) < RipeCount(worlds, steps, start, c, pid)
  }

  /** With enough ripe callbacks no input of the command is left. */
  lemma EnoughEnds(worlds: seq<World>, steps: seq<Step>, start: nat, c: Completion)
    requires |worlds| == |steps| && start <= |steps| && AllAllowed(worlds, steps) && GivenSince(worlds, steps, start, c)
    requires EnoughCallbacks(worlds, steps, start, c)
    ensures forall pid :: !Carries(Run(worlds, steps).active, pid, c)
  {
    hide Run, AllAllowed, GivenSince, RipeCount, StepsLeft;
    var active := Run(worlds[..start], steps[..start]).active;
    forall pid ensures !Carries(Run(worlds, steps).active, pid, c) {
      var n := if Carries(active, pid, c) then StepsLeft(active[pid].sequence) + 1 else 0;
      RipeCallbacksCount(worlds, steps, start, c, pid, n);
    }
  }

  // ----- batches -----

  lemma {:induction false} BatchNumbersGrow(worlds: seq<World>, steps: seq<Step>, start: nat)
    requires |worlds| == |steps| && start <= |steps|
    ensures Run(worlds[..start], steps[..start]).nextBatch <= Run(worlds, steps).nextBatch
    decreases |steps|
  {
    if start == |steps| {
      assert worlds[..start] == worlds && steps[..start] == steps;
    } else {
      hide StepOnce;
      var m := |steps| - 1;
      assert worlds[..m][..start] == worlds[..start] && steps[..m][..start] == steps[..start];
      BatchNumbersGrow(worlds[..m], steps[..m], start);
      StepNumbersGrow(Run(worlds[..m], steps[..m]), worlds[m], steps[m]);
    }
  }

  lemma StepNumbersGrow(h: Hub, w: World, step: Step)
    ensures h.nextBatch <= StepOnce(h, w, step).nextBatch
  {
    hide Acquire, GiveBack, Enlist, Prepared, Finished, SetBroadcast, ClearBroadcast;
    if step.Advanced? { CallbackNumbers(h, w, step.order, |step.order|); }
  }

  lemma {:induction false} CallbackNumbers(h: Hub, w: World, order: seq<Pid>, n: nat)
    requires n <= |order|
    ensures AdvanceAll(h, w, order, n).nextBatch == h.nextBatch
  {
    if n > 0 {
      hide SetKeys, Finished, NextPhase, PhaseScans, Closed;
      CallbackNumbers(h, w, order, n - 1);
    }
  }

  /** No targeted key is down on a target that has no input. */
  ghost predicate KeysUp(h: Hub) { forall pid | pid in h.keys && pid !in h.active :: h.keys[pid].targeted == {} }

  lemma InvKeysUp(h: Hub)
    requires Inv(h)
    ensures KeysUp(h)
  { forall pid | pid in h.keys && pid !in h.active ensures h.keys[pid].targeted == {} { IdleTargetsAreUp(h, pid); } }

  /** The batch is over: no member is active, its requester has been told exactly once, Ok
      exactly when no member failed, and released targets have their keys up. */
  ghost predicate BatchOver(h: Hub, id: BatchId, q: Requester) {
    id !in h.batches && Members(h.active, id) == {} && Answered(h.log, id, q) && RepliedOnce(h.log, q) && KeysUp(h)
  }

  /** A pending batch each of whose members has enough ripe callbacks to come is answered,
      whatever else happens in between. */
  lemma BatchIsAnswered(worlds: seq<World>, steps: seq<Step>, start: nat, id: BatchId, q: Requester)
    requires |worlds| == |steps| && start <= |steps| && AllAllowed(worlds, steps)
    requires forall i | start <= i < |steps| :: !steps[i].Stopped? && q in worlds[i].open
    requires var h := Run(worlds[..start], steps[..start]); id in h.batches && h.batches[id].requester == q
    requires EnoughCallbacks(worlds, steps, start, Batch(id))
    ensures BatchOver(Run(worlds, steps), id, q)
  {
    hide Run, AllAllowed, Inv, OneReply, EnoughCallbacks, Answered, RepliedOnce, KeysUp, Members;
    BatchIsGiven(worlds, steps, start, id);
    EnoughEnds(worlds, steps, start, Batch(id));
    BatchGetsOneReply(worlds, steps, start, id, q);
    InvOverRuns(worlds, steps);
    OverWhenEmpty(Run(worlds, steps), id, q);
  }

  lemma BatchIsGiven(worlds: seq<World>, steps: seq<Step>, start: nat, id: BatchId)
    requires |worlds| == |steps| && start <= |steps| && AllAllowed(worlds, steps)
    requires id in Run(worlds[..start], steps[..start]).batches
    ensures GivenSince(worlds, steps, start, Batch(id))
  {
    hide Run, AllAllowed, Inv;
    AllowedPrefix(worlds, steps, start);
    InvOverRuns(worlds[..start], steps[..start]);
    PendingIsNumbered(Run(worlds[..start], steps[..start]), id);
    forall k | start <= k <= |steps| ensures Given(Run(worlds[..k], steps[..k]), Batch(id)) {
      BatchNumbersGrow(worlds[..k], steps[..k], start);
      assert worlds[..k][..start] == worlds[..start] && steps[..k][..start] == steps[..start];
    }
  }

  lemma PendingIsNumbered(h: Hub, id: BatchId)
    requires Inv(h) && id in h.batches
    ensures id <= h.nextBatch
  {}

  lemma OverWhenEmpty(h: Hub, id: BatchId, q: Requester)
    requires Inv(h) && OneReply(h, id, q) && forall pid :: !Carries(h.active, pid, Batch(id))
    ensures BatchOver(h, id, q)
  {
    hide Answered, RepliedOnce, Inv, KeysUp;
    InvKeysUp(h);
    forall pid | pid in h.active ensures h.active[pid].completion != Batch(id) { assert !Carries(h.active, pid, Batch(id)); }
    assert Members(h.active, id) == {};
  }

  /** A batch just started: each member has at most four due steps before its Finish. */
  lemma StartedBatch(h: Hub, w: World, members: seq<Member>, q: Requester)
    requires Inv(h) && h.nextBatch < U64_MAX && StartBatch(h, w, members, q).nextBatch > h.nextBatch
    ensures var t := StartBatch(h, w, members, q);
            t.nextBatch in t.batches && t.batches[t.nextBatch].requester == q
            && AllBegun(t.active, members, w.now, t.nextBatch)
  {
    hide Acquire, GiveBack, Enlist, Prepared, StepsLeft;
    var id := SatAdd(h.nextBatch, 1);
    NotYet(h, id);
    EnlistBegins(h.active, members, id, w.now, |members|);
  }

  /** A member's sequence at its start. */
  ghost predicate Begun(members: seq<Member>, now: nat, q: Running) {
    exists i :: 0 <= i < |members| && BegunBy(members[i], now, q)
  }

  ghost predicate AllBegun(active: map<Pid, ActiveInput>, members: seq<Member>, now: nat, id: BatchId) {
    forall pid | Carries(active, pid, Batch(id)) :: Begun(members, now, active[pid].sequence)
  }

  predicate BegunBy(m: Member, now: nat, q: Running) { q == Sequence([m.stroke], 0, Press, now + ACTIVATION_DELAY) }

  lemma {:induction false} EnlistBegins(active: map<Pid, ActiveInput>, members: seq<Member>, id: BatchId, now: nat, n: nat)
    requires n <= |members| && forall pid | pid in active :: active[pid].completion != Batch(id)
    ensures AllBegun(Enlist(active, members, id, now, n), members, now, id)
  {
    if n > 0 {
      EnlistBegins(active, members, id, now, n - 1);
      var before, more := Enlist(active, members, id, now, n - 1), Enlist(active, members, id, now, n);
      forall pid | Carries(more, pid, Batch(id)) ensures Begun(members, now, more[pid].sequence) {
        if pid != members[n - 1].pid {
          assert Carries(before, pid, Batch(id));
        } else {
          assert BegunBy(members[n - 1], now, more[pid].sequence);
        }
      }
    }
  }

  lemma BeginLeft(strokes: Strokes, now: nat)
    ensures StepsLeft(KeySequencer.Begin(strokes, now)) <= 4 * |strokes|
  {
    TotalAtMostFour(strokes);
    assert strokes[0 + 1..] == strokes[1..];
  }

  lemma BegunLeft(members: seq<Member>, now: nat, q: Running)
    requires Begun(members, now, q)
    ensures StepsLeft(q) <= 4 && q.nextStep == now + ACTIVATION_DELAY
    ensures exists i :: 0 <= i < |members| && q.strokes == [members[i].stroke]
  {
    hide StepsLeft;
    var i :| 0 <= i < |members| && BegunBy(members[i], now, q);
    BeginLeft([members[i].stroke], now);
  }

  /** What a run with an accepted batch at step `start` starts from. */
  lemma BatchStart(worlds: seq<World>, steps: seq<Step>, start: nat)
    requires |worlds| == |steps| && start < |steps| && AllAllowed(worlds, steps) && steps[start].BatchStarted?
    requires Run(worlds[..start], steps[..start]).nextBatch < Run(worlds[..start + 1], steps[..start + 1]).nextBatch
    ensures var t := Run(worlds[..start + 1], steps[..start + 1]);
            t.nextBatch in t.batches && t.batches[t.nextBatch].requester == steps[start].requester
            && AllBegun(t.active, steps[start].members, worlds[start].now, t.nextBatch)
  {
    hide Inv, StartBatch, Begun;
    var h := Run(worlds[..start], steps[..start]);
    assert worlds[..start + 1][..start] == worlds[..start] && steps[..start + 1][..start] == steps[..start];
    assert Run(worlds[..start + 1], steps[..start + 1]) == StartBatch(h, worlds[start], steps[start].members, steps[start].requester);
    AllowedPrefix(worlds, steps, start);
    InvOverRuns(worlds[..start], steps[..start]);
    assert Allowed(h, steps[start]);
    StartedBatch(h, worlds[start], steps[start].members, steps[start].requester);
  }

  /** Started at step `start`, answered after five callbacks that are ripe for each member,
      not necessarily the same five. */
  lemma StartedBatchIsAnswered(worlds: seq<World>, steps: seq<Step>, start: nat)
    requires |worlds| == |steps| && start < |steps| && AllAllowed(worlds, steps) && steps[start].BatchStarted?
    requires var h, t := Run(worlds[..start], steps[..start]), Run(worlds[..start + 1], steps[..start + 1]);
             h.nextBatch < t.nextBatch
             && forall pid | Carries(t.active, pid, Batch(t.nextBatch)) :: RipeCount(worlds, steps, start + 1, Batch(t.nextBatch), pid) >= 5
    requires forall i | start < i < |steps| :: !steps[i].Stopped? && steps[start].requester in worlds[i].open
    ensures BatchOver(Run(worlds, steps), Run(worlds[..start + 1], steps[..start + 1]).nextBatch, steps[start].requester)
  {
    hide Run, AllAllowed, BatchOver, RipeCount, StepsLeft, Begun;
    BatchStart(worlds, steps, start);
    var t := Run(worlds[..start + 1], steps[..start + 1]);
    forall pid | Carries(t.active, pid, Batch(t.nextBatch))
      ensures StepsLeft(t.active[pid].sequence) < RipeCount(worlds, steps, start + 1, Batch(t.nextBatch), pid) {
      BegunLeft(steps[start].members, worlds[start].now, t.active[pid].sequence);
    }
    BatchIsAnswered(worlds, steps, start + 1, t.nextBatch, steps[start].requester);
  }
}
