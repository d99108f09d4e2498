/** Single inputs: the requester is told exactly once, and Ok exactly when the whole
    sequence was delivered. */
module SingleInputs {
  import opened Foundations
  import opened KeySequencer
  import opened InputDelivery
  import opened InputDeliverySafety
  import opened InputProgress

  /** The input is still active under its requester's name, or the requester has been told. */
  ghost predicate AnsweredOrActive(h: Hub, q: Requester) {
    HasReply(h.log, q) || exists pid :: Carries(h.active, pid, Single(q))
  }

  lemma OutcomeIsGiven(h: Hub, q: Requester)
    requires AnsweredOrActive(h, q)
    ensures Given(h, Single(q))
  {
    if !HasReply(h.log, q) {
      var pid :| Carries(h.active, pid, Single(q));
      assert Asks(h.active, h.batches, FromInput(pid), q);
    }
  }

  lemma ReplyStays(log: seq<Notice>, more: seq<Notice>, q: Requester)
    requires HasReply(log, q) && log <= more
    ensures HasReply(more, q)
  {
    var i :| 0 <= i < |log| && log[i].Replied? && log[i].requester == q;
    assert more[i] == log[i];
  }

  lemma FinishLogs(h: Hub, w: World, pid: Pid, ending: Ending)
    requires pid in h.active
    ensures var t := FinishInput(h, w, pid, ending);
            h.log <= t.log
            && (h.active[pid].completion.Single? && h.active[pid].completion.requester in w.open && !ending.Abandoned?
                ==> HasReply(t.log, h.active[pid].completion.requester))
  {
    hide Finished;
    var t := FinishInput(h, w, pid, ending);
    if h.active[pid].completion.Single? && h.active[pid].completion.requester in w.open && !ending.Abandoned? {
      assert t.log[|h.log|] == Replied(h.active[pid].completion.requester, ending.Delivered?);
    }
  }

  /** Advancing one input: the others stay, and its own requester is told if it ends. */
  lemma AdvanceAnswers(h: Hub, w: World, pid: Pid, q: Requester)
    requires pid in h.active && q in w.open && AnsweredOrActive(h, q)
    ensures AnsweredOrActive(AdvanceOne(h, w, pid), q)
  {
    var t := AdvanceOne(h, w, pid);
    AdvanceLogs(h, w, pid, q);
    if HasReply(h.log, q) {
      ReplyStays(h.log, t.log, q);
    } else {
      hide HasReply;
      var p :| Carries(h.active, p, Single(q));
      AdvanceOneProgress(h, w, pid);
      hide AdvanceOne, NextPhase;
      if p != pid || p in t.active { assert Carries(t.active, p, Single(q)); }
    }
  }

  lemma AdvanceLogs(h: Hub, w: World, pid: Pid, q: Requester)
    requires pid in h.active && q in w.open
    ensures var t := AdvanceOne(h, w, pid);
            h.log <= t.log && (Carries(h.active, pid, Single(q)) && pid !in t.active ==> HasReply(t.log, q))
  {
    hide FinishInput, SetKeys, PhaseScans, NextPhase, HasReply;
    FinishLogs(h, w, pid, Abandoned); FinishLogs(h, w, pid, Failed); FinishLogs(h, w, pid, Delivered);
    var s := h.active[pid].sequence;
    var keys := SetKeys(h.keys, pid, PhaseScans(s.strokes[s.index], s.phase), Presses(s.phase)).0;
    FinishLogs(h.(keys := keys), w, pid, Failed);
  }

  lemma {:induction false} CallbackOutcome(h: Hub, w: World, order: seq<Pid>, n: nat, q: Requester)
    requires n <= |order| && q in w.open && AnsweredOrActive(h, q)
    ensures AnsweredOrActive(AdvanceAll(h, w, order, n), q)
  {
    if n > 0 {
      hide AnsweredOrActive, AdvanceOne;
      CallbackOutcome(h, w, order, n - 1, q);
      var g := AdvanceAll(h, w, order, n - 1);
      if order[n - 1] in g.active { AdvanceAnswers(g, w, order[n - 1], q); }
    }
  }

  /** Starts and key broadcasts add at most a reply and keep every active input. */
  lemma StartsKeepActive(h: Hub, w: World, step: Step)
    requires Allowed(h, step) && !step.Advanced? && !step.Stopped?
    ensures var t := StepOnce(h, w, step);
            h.log <= t.log && forall pid | pid in h.active :: pid in t.active && t.active[pid] == h.active[pid]
  {
    hide StartBatch, Finished, Activate, CanBegin, SetBroadcast, ClearBroadcast, Unused;
    if step.BatchStarted? { BatchKeepsActive(h, w, step.members, step.requester); }
  }

  lemma BatchKeepsActive(h: Hub, w: World, members: seq<Member>, q: Requester)
    ensures var t := StartBatch(h, w, members, q);
            h.log <= t.log && forall pid | pid in h.active :: pid in t.active && t.active[pid] == h.active[pid]
  {
    hide Acquire, GiveBack, Enlist;
    var id := SatAdd(h.nextBatch, 1);
    EnlistLoop(h.active, members, id, w.now, |members|);
    if Prepared(h, w, members) {
      var pids := Pids(members);
      assert pids[..|pids|] == pids;
      assert forall p | p in pids :: p !in h.active;
    }
  }

  lemma StepOutcomeSingle(h: Hub, w: World, step: Step, q: Requester)
    requires Allowed(h, step) && !step.Stopped? && q in w.open && AnsweredOrActive(h, q)
    ensures AnsweredOrActive(StepOnce(h, w, step), q)
  {
    if step.Advanced? {
      hide AnsweredOrActive, AdvanceAll;
      CallbackOutcome(h, w, step.order, |step.order|, q);
    } else {
      hide StepOnce, Allowed;
      StartsKeepActive(h, w, step);
      var t := StepOnce(h, w, step);
      if HasReply(h.log, q) {
        ReplyStays(h.log, t.log, q);
      } else {
        var pid :| Carries(h.active, pid, Single(q));
        assert Carries(t.active, pid, Single(q));
      }
    }
  }

  lemma {:induction false} SingleOverRuns(worlds: seq<World>, steps: seq<Step>, start: nat, q: Requester)
    requires |worlds| == |steps| && start <= |steps| && AllAllowed(worlds, steps)
    requires forall i | start <= i < |steps| :: !steps[i].Stopped? && q in worlds[i].open
    requires AnsweredOrActive(Run(worlds[..start], steps[..start]), q)
    ensures AnsweredOrActive(Run(worlds, steps), q)
    decreases |steps|
  {
    hide StepOnce, AnsweredOrActive, Allowed, AllAllowed;
    if start == |steps| {
      assert worlds[..start] == worlds && steps[..start] == steps;
    } else {
      var m := |steps| - 1;
      AllowedBefore(worlds, steps);
      assert worlds[..m][..start] == worlds[..start] && steps[..m][..start] == steps[..start];
      SingleOverRuns(worlds[..m], steps[..m], start, q);
      StepOutcomeSingle(Run(worlds[..m], steps[..m]), worlds[m], steps[m], q);
    }
  }

  // ----- what the requester is told -----

  ghost predicate OkReply(log: seq<Notice>, q: Requester) { exists i :: 0 <= i < |log| && log[i] == Replied(q, true) }

  /** The input on this target has done all its steps, and its last wait is over. */
  predicate Played(active: map<Pid, ActiveInput>, w: World, pid: Pid, q: Requester) {
    Carries(active, pid, Single(q)) && pid in w.present
    && active[pid].sequence.phase.Finish? && w.now >= active[pid].sequence.nextStep
  }

  /** The callback comes to the requester's complete input. */
  ghost predicate Delivers(h: Hub, w: World, step: Step, q: Requester) {
    step.Advanced? && AnyPlayed(h.active, w, step.order, q)
  }

  ghost predicate AnyPlayed(active: map<Pid, ActiveInput>, w: World, order: seq<Pid>, q: Requester) {
    exists pid :: pid in order && Played(active, w, pid, q)
  }

  lemma OkPush(log: seq<Notice>, n: Notice, q: Requester)
    ensures OkReply(log + [n], q) <==> OkReply(log, q) || n == Replied(q, true)
  {
    assert forall i | 0 <= i < |log| :: (log + [n])[i] == log[i];
    assert (log + [n])[|log|] == n;
  }

  ghost predicate NoBatchAsks(batches: map<BatchId, PendingBatch>, q: Requester) {
    forall id | id in batches :: batches[id].requester != q
  }

  lemma SingleHasNoBatch(h: Hub, q: Requester)
    requires Inv(h) && AnsweredOrActive(h, q)
    ensures NoBatchAsks(h.batches, q)
  {
    hide KeysAgree, BatchesAgree, HistoryAgrees, HasReply;
    if !HasReply(h.log, q) {
      var pid :| Carries(h.active, pid, Single(q));
      assert Asks(h.active, h.batches, FromInput(pid), q);
    }
    forall id | id in h.batches ensures h.batches[id].requester != q {
      assert Asks(h.active, h.batches, FromBatch(id), h.batches[id].requester);
    }
  }

  lemma FinishOk(h: Hub, w: World, pid: Pid, ending: Ending, q: Requester)
    requires pid in h.active && q in w.open && NoBatchAsks(h.batches, q)
    ensures var t := FinishInput(h, w, pid, ending);
            OkReply(t.log, q) <==> OkReply(h.log, q) || (Carries(h.active, pid, Single(q)) && ending.Delivered?)
  {
    hide Finished, OkReply;
    match h.active[pid].completion
    case Single(r) => OkPush(h.log, Replied(r, ending.Delivered?), q);
    case Batch(id) =>
      if id in h.batches {
        var done, r := MemberDone(id, pid, ending.Failed?), h.batches[id].requester;
        OkPush(h.log, done, q);
        OkPush(h.log + [done], Replied(r, !(h.batches[id].failed || ending.Failed?)), q);
      }
    case Local =>
  }

  /** Advancing one input tells the requester Ok exactly when it is their complete one. */
  lemma AdvanceOk(h: Hub, w: World, pid: Pid, q: Requester)
    requires pid in h.active && q in w.open && NoBatchAsks(h.batches, q)
    ensures OkReply(AdvanceOne(h, w, pid).log, q) <==> OkReply(h.log, q) || Played(h.active, w, pid, q)
  {
    hide FinishInput, SetKeys, PhaseScans, NextPhase, OkReply;
    FinishOk(h, w, pid, Abandoned, q); FinishOk(h, w, pid, Failed, q); FinishOk(h, w, pid, Delivered, q);
    var s := h.active[pid].sequence;
    var keys := SetKeys(h.keys, pid, PhaseScans(s.strokes[s.index], s.phase), Presses(s.phase)).0;
    FinishOk(h.(keys := keys), w, pid, Failed, q);
  }

  /** An input that the callback has moved is not complete within it. */
  lemma MovedIsNotPlayed(h: Hub, w: World, order: seq<Pid>, n: nat, q: Requester)
    requires n < |order|
    ensures var g := AdvanceAll(h, w, order, n); var pid := order[n];
            (pid in g.active && Played(g.active, w, pid, q) ==> Played(h.active, w, pid, q))
            && (Played(h.active, w, pid, q) ==> (pid in g.active && Played(g.active, w, pid, q)) || pid in order[..n])
  {
    hide AdvanceAll, StepsLeft, LongestDelay;
    CallbackProgress(h, w, order, n);
  }

  lemma {:induction false} CallbackOk(h: Hub, w: World, order: seq<Pid>, n: nat, q: Requester)
    requires n <= |order| && q in w.open && Inv(h) && AnsweredOrActive(h, q)
    ensures OkReply(AdvanceAll(h, w, order, n).log, q) <==> OkReply(h.log, q) || AnyPlayed(h.active, w, order[..n], q)
  {
    if n > 0 {
      hide AnsweredOrActive, AdvanceOne, Inv, OkReply, Played, NoBatchAsks;
      CallbackOk(h, w, order, n - 1, q);
      var g := AdvanceAll(h, w, order, n - 1);
      AdvanceAllKeeps(h, w, order, n - 1);
      CallbackOutcome(h, w, order, n - 1, q);
      SingleHasNoBatch(g, q);
      MovedIsNotPlayed(h, w, order, n - 1, q);
      assert order[..n] == order[..n - 1] + [order[n - 1]];
      if order[n - 1] in g.active { AdvanceOk(g, w, order[n - 1], q); }
    }
  }

  /** Any step tells the requester Ok exactly when it delivers their input. */
  lemma StepOk(h: Hub, w: World, step: Step, q: Requester)
    requires q in w.open && Inv(h) && AnsweredOrActive(h, q)
    ensures OkReply(StepOnce(h, w, step).log, q) <==> OkReply(h.log, q) || Delivers(h, w, step, q)
  {
    if step.Advanced? {
      hide AdvanceAll, OkReply, AnyPlayed, AnsweredOrActive, Inv;
      CallbackOk(h, w, step.order, |step.order|, q);
      assert step.order[..|step.order|] == step.order;
    } else {
      hide Acquire, GiveBack, Enlist, Finished, Activate, SetBroadcast, ClearBroadcast, Prepared, OkReply, Inv, AnsweredOrActive;
      if step.SingleStarted? || step.BatchStarted? { OkPush(h.log, Replied(step.requester, false), q); }
    }
  }

  /** Some step from `start` on delivered the requester's input. */
  ghost predicate DeliveredIn(worlds: seq<World>, steps: seq<Step>, start: nat, q: Requester)
    requires |worlds| == |steps|
  { exists m :: start <= m < |steps| && Delivers(Run(worlds[..m], steps[..m]), worlds[m], steps[m], q) }

  lemma DeliveredPush(worlds: seq<World>, steps: seq<Step>, start: nat, q: Requester)
    requires |worlds| == |steps| && start < |steps|
    ensures var m := |steps| - 1;
            DeliveredIn(worlds, steps, start, q)
            <==> DeliveredIn(worlds[..m], steps[..m], start, q) || Delivers(Run(worlds[..m], steps[..m]), worlds[m], steps[m], q)
  {
    hide Run, Delivers;
    var m := |steps| - 1;
    assert forall k | start <= k < m :: worlds[..m][..k] == worlds[..k] && steps[..m][..k] == steps[..k];
  }

  lemma {:induction false} OkOverRuns(worlds: seq<World>, steps: seq<Step>, start: nat, q: Requester)
    requires |worlds| == |steps| && start <= |steps| && AllAllowed(worlds, steps)
    requires forall i | start <= i < |steps| :: !steps[i].Stopped? && q in worlds[i].open
    requires AnsweredOrActive(Run(worlds[..start], steps[..start]), q)
    ensures OkReply(Run(worlds, steps).log, q)
            <==> OkReply(Run(worlds[..start], steps[..start]).log, q) || DeliveredIn(worlds, steps, start, q)
    decreases |steps|
  {
    hide StepOnce, AnsweredOrActive, Allowed, AllAllowed, OkReply, Delivers, Inv, DeliveredIn;
    if start == |steps| {
      assert worlds[..start] == worlds && steps[..start] == steps;
      assert !DeliveredIn(worlds, steps, start, q) by { NoneDelivered(worlds, steps, q); }
    } else {
      var m := |steps| - 1;
      AllowedBefore(worlds, steps);
      assert worlds[..m][..start] == worlds[..start] && steps[..m][..start] == steps[..start];
      OkOverRuns(worlds[..m], steps[..m], start, q);
      SingleOverRuns(worlds[..m], steps[..m], start, q);
      InvOverRuns(worlds[..m], steps[..m]);
      StepOk(Run(worlds[..m], steps[..m]), worlds[m], steps[m], q);
      DeliveredPush(worlds, steps, start, q);
    }
  }

  lemma NoneDelivered(worlds: seq<World>, steps: seq<Step>, q: Requester)
    requires |worlds| == |steps|
    ensures !DeliveredIn(worlds, steps, |steps|, q)
  {}

  // ----- answered -----

  /** The single input is over and its requester has been told exactly once. */
  ghost predicate SingleOver(h: Hub, q: Requester) {
    (forall pid :: !Carries(h.active, pid, Single(q))) && HasReply(h.log, q) && RepliedOnce(h.log, q) && KeysUp(h)
  }

  /** An active input with enough ripe callbacks to come is answered, Ok exactly when one of
      the callbacks found it complete. */
  lemma SingleIsAnswered(worlds: seq<World>, steps: seq<Step>, start: nat, q: Requester)
    requires |worlds| == |steps| && start <= |steps| && AllAllowed(worlds, steps)
    requires forall i | start <= i < |steps| :: !steps[i].Stopped? && q in worlds[i].open
    requires var h := Run(worlds[..start], steps[..start]); AnsweredOrActive(h, q) && !OkReply(h.log, q)
    requires EnoughCallbacks(worlds, steps, start, Single(q))
    ensures SingleOver(Run(worlds, steps), q)
    ensures OkReply(Run(worlds, steps).log, q) <==> DeliveredIn(worlds, steps, start, q)
  {
    hide Run, Inv, EnoughCallbacks, AnsweredOrActive, AllAllowed, OkReply, DeliveredIn, SingleOver;
    SingleIsGiven(worlds, steps, start, q);
    EnoughEnds(worlds, steps, start, Single(q));
    SingleOverRuns(worlds, steps, start, q);
    InvOverRuns(worlds, steps);
    OverOrActive(Run(worlds, steps), q);
    OkOverRuns(worlds, steps, start, q);
  }

  lemma SingleIsGiven(worlds: seq<World>, steps: seq<Step>, start: nat, q: Requester)
    requires |worlds| == |steps| && start <= |steps| && AllAllowed(worlds, steps)
    requires forall i | start <= i < |steps| :: !steps[i].Stopped? && q in worlds[i].open
    requires AnsweredOrActive(Run(worlds[..start], steps[..start]), q)
    ensures GivenSince(worlds, steps, start, Single(q))
  {
    hide Run, AnsweredOrActive, AllAllowed;
    forall k | start <= k <= |steps| ensures Given(Run(worlds[..k], steps[..k]), Single(q)) {
      AllowedPrefix(worlds, steps, k);
      assert worlds[..k][..start] == worlds[..start] && steps[..k][..start] == steps[..start];
      SingleOverRuns(worlds[..k], steps[..k], start, q);
      OutcomeIsGiven(Run(worlds[..k], steps[..k]), q);
    }
  }

  lemma OverOrActive(h: Hub, q: Requester)
    requires Inv(h) && AnsweredOrActive(h, q) && forall pid :: !Carries(h.active, pid, Single(q))
    ensures SingleOver(h, q)
  {
    hide KeysUp, HasReply;
    InvKeysUp(h);
  }

  /** What a run with a single input at step `start` starts from. */
  lemma SingleStart(worlds: seq<World>, steps: seq<Step>, start: nat)
    requires |worlds| == |steps| && start < |steps| && AllAllowed(worlds, steps) && steps[start].SingleStarted?
    requires steps[start].requester in worlds[start].open
    ensures var t, q := Run(worlds[..start + 1], steps[..start + 1]), steps[start].requester;
            AnsweredOrActive(t, q) && !OkReply(t.log, q)
            && forall pid | Carries(t.active, pid, Single(q)) ::
                 pid == steps[start].pid && t.active[pid].sequence == KeySequencer.Begin(steps[start].strokes, worlds[start].now)
  {
    hide StartSingle, AnsweredOrActive, OkReply, Unused, Carries;
    var h, q := Run(worlds[..start], steps[..start]), steps[start].requester;
    assert worlds[..start + 1][..start] == worlds[..start] && steps[..start + 1][..start] == steps[..start];
    assert Run(worlds[..start + 1], steps[..start + 1]) == StartSingle(h, worlds[start], steps[start].pid, steps[start].strokes, q);
    assert Allowed(h, steps[start]);
    StartedSingle(h, worlds[start], steps[start].pid, steps[start].strokes, q);
  }

  lemma StartedSingle(h: Hub, w: World, pid: Pid, strokes: Strokes, q: Requester)
    requires Unused(h, q) && q in w.open
    ensures var t := StartSingle(h, w, pid, strokes, q);
            AnsweredOrActive(t, q) && !OkReply(t.log, q)
            && forall p | Carries(t.active, p, Single(q)) :: p == pid && t.active[p].sequence == KeySequencer.Begin(strokes, w.now)
  {
    hide Finished, Activate, CanBegin, KeySequencer.Begin;
    var t := StartSingle(h, w, pid, strokes, q);
    forall p | p in h.active ensures h.active[p].completion != Single(q) { assert !Asks(h.active, h.batches, FromInput(p), q); }
    OkPush(h.log, Replied(q, false), q);
    if t.log != h.log {
      assert t.log[|h.log|] == Replied(q, false);
      assert HasReply(t.log, q);
    } else {
      assert Carries(t.active, pid, Single(q));
    }
  }

  /** Started at step `start` with n strokes, answered after 4n + 1 ripe callbacks. */
  lemma StartedSingleIsAnswered(worlds: seq<World>, steps: seq<Step>, start: nat)
    requires |worlds| == |steps| && start < |steps| && AllAllowed(worlds, steps) && steps[start].SingleStarted?
    requires var q := steps[start].requester;
             q in worlds[start].open && RipeCount(worlds, steps, start + 1, Single(q), steps[start].pid) > 4 * |steps[start].strokes|
    requires forall i | start < i < |steps| :: !steps[i].Stopped? && steps[start].requester in worlds[i].open
    ensures SingleOver(Run(worlds, steps), steps[start].requester)
    ensures OkReply(Run(worlds, steps).log, steps[start].requester) <==> DeliveredIn(worlds, steps, start + 1, steps[start].requester)
  {
    hide Run, AllAllowed, SingleOver, RipeCount, AnsweredOrActive, OkReply, DeliveredIn, StepsLeft;
    SingleStart(worlds, steps, start);
    BeginLeft(steps[start].strokes, worlds[start].now);
    SingleIsAnswered(worlds, steps, start + 1, steps[start].requester);
  }
}
