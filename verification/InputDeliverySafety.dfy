/** What every run of targeted input keeps: held keys, batches and replies. */
module InputDeliverySafety {
  import opened Foundations
  import opened KeySequencer
  import opened InputDelivery

  // ----- keys -----

  /** A target's keys are up unless its own input holds exactly its phase's keys. */
  ghost predicate KeyAgrees(k: KeyTarget, active: map<Pid, ActiveInput>, pid: Pid) {
    Combined(k)
    && (if k.active then pid in active && k.targeted == HeldAt(active[pid].sequence) else k.targeted == {})
  }

  ghost predicate KeysAgree(keys: map<Pid, KeyTarget>, active: map<Pid, ActiveInput>) {
    forall pid | pid in keys :: KeyAgrees(keys[pid], active, pid)
  }

  // ----- batches -----

  function Members(active: map<Pid, ActiveInput>, id: BatchId): set<Pid> {
    set pid | pid in active && active[pid].completion == Batch(id)
  }

  /** A batch waits for exactly the active inputs that carry its id. */
  ghost predicate BatchesAgree(active: map<Pid, ActiveInput>, batches: map<BatchId, PendingBatch>, next: U64) {
    (forall id | id in batches :: batches[id].remaining == Members(active, id) && batches[id].remaining != {} && id <= next)
    && forall pid | pid in active && active[pid].completion.Batch? :: active[pid].completion.id in batches
  }

  // ----- history -----

  ghost predicate SomeMemberFailed(log: seq<Notice>, id: BatchId) {
    exists i :: 0 <= i < |log| && log[i].MemberDone? && log[i].batch == id && log[i].failed
  }

  ghost predicate HasReply(log: seq<Notice>, q: Requester) {
    exists i :: 0 <= i < |log| && log[i].Replied? && log[i].requester == q
  }

  /** A pending batch carries an error exactly when one of its members failed, and the
      history knows no batch that has not been started. */
  ghost predicate HistoryAgrees(batches: map<BatchId, PendingBatch>, next: U64, log: seq<Notice>) {
    (forall id | id in batches :: batches[id].failed <==> SomeMemberFailed(log, id))
    && forall i | 0 <= i < |log| && log[i].MemberDone? :: log[i].batch <= next
  }

  datatype Asker = FromInput(pid: Pid) | FromBatch(id: BatchId)

  predicate Asks(active: map<Pid, ActiveInput>, batches: map<BatchId, PendingBatch>, a: Asker, q: Requester) {
    match a
    case FromInput(pid) => pid in active && active[pid].completion == Single(q)
    case FromBatch(id) => id in batches && batches[id].requester == q
  }

  /** No one is replied to twice, nor while still waiting, nor on behalf of two. */
  ghost predicate RepliesAgree(active: map<Pid, ActiveInput>, batches: map<BatchId, PendingBatch>, log: seq<Notice>) {
    (forall a, q | Asks(active, batches, a, q) :: !HasReply(log, q))
    && (forall a, b, q | Asks(active, batches, a, q) && Asks(active, batches, b, q) :: a == b)
    && forall i, j | 0 <= i < j < |log| && log[i].Replied? && log[j].Replied? :: log[i].requester != log[j].requester
  }

  ghost predicate Inv(h: Hub) {
    KeysAgree(h.keys, h.active) && BatchesAgree(h.active, h.batches, h.nextBatch)
    && HistoryAgrees(h.batches, h.nextBatch, h.log) && RepliesAgree(h.active, h.batches, h.log)
  }

  /** The channel has not been used before. */
  ghost predicate Unused(h: Hub, q: Requester) {
    !HasReply(h.log, q) && forall a :: !Asks(h.active, h.batches, a, q)
  }

  /** What the callers guarantee: fresh channels, non-empty batches, real scan codes,
      and no wrap of the batch counter. */
  ghost predicate Allowed(h: Hub, step: Step) {
    match step
    case SingleStarted(_, _, q) => Unused(h, q)
    case BatchStarted(members, q) => Unused(h, q) && members != [] && h.nextBatch < U64_MAX
    case KeyBroadcast(scan, _, _) => ValidScan(scan)
    case _ => true
  }

  // ----- replying -----

  lemma ReplyHistory(log: seq<Notice>, n: Notice, id: BatchId, q: Requester)
    ensures SomeMemberFailed(log + [n], id) <==> SomeMemberFailed(log, id) || (n.MemberDone? && n.batch == id && n.failed)
    ensures HasReply(log + [n], q) <==> HasReply(log, q) || (n.Replied? && n.requester == q)
  {
    var more := log + [n];
    assert forall i | 0 <= i < |log| :: more[i] == log[i];
    assert more[|log|] == n;
  }

  lemma ReplyKeeps(h: Hub, q: Requester, ok: bool)
    requires Inv(h) && Unused(h, q)
    ensures Inv(Reply(h, q, ok))
  {
    hide KeysAgree, BatchesAgree, HistoryAgrees, RepliesAgree;
    ReplyKeepsHistory(h.batches, h.nextBatch, h.log, q, ok);
    ReplyKeepsReplies(h.active, h.batches, h.log, q, ok);
  }

  lemma ReplyKeepsHistory(batches: map<BatchId, PendingBatch>, next: U64, log: seq<Notice>, q: Requester, ok: bool)
    requires HistoryAgrees(batches, next, log)
    ensures HistoryAgrees(batches, next, log + [Replied(q, ok)])
  {
    hide SomeMemberFailed;
    forall id | id in batches ensures SomeMemberFailed(log + [Replied(q, ok)], id) <==> SomeMemberFailed(log, id) {
      ReplyHistory(log, Replied(q, ok), id, q);
    }
  }

  lemma ReplyKeepsReplies(active: map<Pid, ActiveInput>, batches: map<BatchId, PendingBatch>, log: seq<Notice>, q: Requester, ok: bool)
    requires RepliesAgree(active, batches, log) && !HasReply(log, q) && forall a :: !Asks(active, batches, a, q)
    ensures RepliesAgree(active, batches, log + [Replied(q, ok)])
  {
    hide HasReply, Asks;
    forall r ensures HasReply(log + [Replied(q, ok)], r) <==> HasReply(log, r) || r == q {
      ReplyHistory(log, Replied(q, ok), 0, r);
    }
    NoneBefore(log, q);
  }

  lemma NoneBefore(log: seq<Notice>, q: Requester)
    requires !HasReply(log, q)
    ensures forall i | 0 <= i < |log| && log[i].Replied? :: log[i].requester != q
  {}

  // ----- acquiring: all or none -----

  lemma BeginThenFinish(keys: map<Pid, KeyTarget>, active: map<Pid, ActiveInput>, pid: Pid)
    requires pid in keys && !keys[pid].active && KeysAgree(keys, active)
    ensures Finished(Activate(keys, pid), pid) == keys
  {
    FinishLeavesKeysUp(keys[pid].(active := true));
    assert keys[pid].shared == keys[pid].broadcast;
  }

  /** Distinct and just acquired, starting from idle targets. */
  ghost predicate Acquired(keys: map<Pid, KeyTarget>, got: map<Pid, KeyTarget>, pids: seq<Pid>, n: nat)
    requires n <= |pids|
  {
    (forall i, j | 0 <= i < j < n :: pids[i] != pids[j])
    && (forall i | 0 <= i < n :: pids[i] in keys && !keys[pids[i]].active)
    && got.Keys == keys.Keys
    && forall p | p in keys :: got[p] == if p in pids[..n] then keys[p].(active := true) else keys[p]
  }

  lemma AcquireStep(keys: map<Pid, KeyTarget>, got: map<Pid, KeyTarget>, pids: seq<Pid>, ready: set<Pid>, n: nat)
    requires n < |pids| && Acquired(keys, got, pids, n) && CanBegin(got, pids[n], ready)
    ensures Acquired(keys, Activate(got, pids[n]), pids, n + 1)
  {
    forall i | 0 <= i < n ensures pids[i] != pids[n] { assert pids[i] in pids[..n]; }
    assert pids[..n + 1] == pids[..n] + [pids[n]];
  }

  lemma {:induction false} AcquireLoop(keys: map<Pid, KeyTarget>, got: map<Pid, KeyTarget>, pids: seq<Pid>, ready: set<Pid>, n: nat)
    requires n <= |pids| && Acquired(keys, got, pids, n)
    ensures var r := Acquire(got, pids, ready, n); n <= r.1 <= |pids| && Acquired(keys, r.0, pids, r.1)
    decreases |pids| - n
  {
    if n < |pids| && CanBegin(got, pids[n], ready) {
      hide Acquired;
      AcquireStep(keys, got, pids, ready, n);
      AcquireLoop(keys, Activate(got, pids[n]), pids, ready, n + 1);
    }
  }

  /** After giving back the first m of n acquired targets. */
  ghost predicate GivenBack(keys: map<Pid, KeyTarget>, got: map<Pid, KeyTarget>, pids: seq<Pid>, m: nat, n: nat)
    requires m <= n <= |pids|
  {
    got.Keys == keys.Keys
    && forall p | p in keys :: got[p] == if p in pids[m..n] then keys[p].(active := true) else keys[p]
  }

  lemma GiveBackStep(keys: map<Pid, KeyTarget>, active: map<Pid, ActiveInput>, got: map<Pid, KeyTarget>, pids: seq<Pid>, m: nat, n: nat)
    requires m < n <= |pids| && GivenBack(keys, got, pids, m, n) && KeysAgree(keys, active)
    requires (forall i, j | 0 <= i < j < n :: pids[i] != pids[j]) && pids[m] in keys && !keys[pids[m]].active
    ensures GivenBack(keys, Finished(got, pids[m]), pids, m + 1, n)
  {
    assert pids[m..n] == [pids[m]] + pids[m + 1..n];
    forall i | m + 1 <= i < n ensures pids[i] != pids[m] {}
    assert pids[m] !in pids[m + 1..n];
    FinishLeavesKeysUp(keys[pids[m]].(active := true));
    assert KeyAgrees(keys[pids[m]], active, pids[m]);
    assert keys[pids[m]].shared == keys[pids[m]].broadcast;
  }

  lemma {:induction false} GiveBackLoop(keys: map<Pid, KeyTarget>, active: map<Pid, ActiveInput>, got: map<Pid, KeyTarget>, pids: seq<Pid>, m: nat, n: nat)
    requires m <= n <= |pids| && Acquired(keys, got, pids, n) && KeysAgree(keys, active)
    ensures GivenBack(keys, GiveBack(got, pids, m), pids, m, n)
  {
    hide GivenBack, Finished, Acquired, KeysAgree;
    if m == 0 {
      NothingGivenBack(keys, got, pids, n);
    } else {
      GiveBackLoop(keys, active, got, pids, m - 1, n);
      AcquiredWereIdle(keys, got, pids, n);
      GiveBackStep(keys, active, GiveBack(got, pids, m - 1), pids, m - 1, n);
    }
  }

  lemma NothingGivenBack(keys: map<Pid, KeyTarget>, got: map<Pid, KeyTarget>, pids: seq<Pid>, n: nat)
    requires n <= |pids| && Acquired(keys, got, pids, n)
    ensures GivenBack(keys, got, pids, 0, n)
  { assert pids[0..n] == pids[..n]; }

  lemma AcquiredWereIdle(keys: map<Pid, KeyTarget>, got: map<Pid, KeyTarget>, pids: seq<Pid>, n: nat)
    requires n <= |pids| && Acquired(keys, got, pids, n)
    ensures forall i, j | 0 <= i < j < n :: pids[i] != pids[j]
    ensures forall i | 0 <= i < n :: pids[i] in keys && !keys[pids[i]].active
  {}

  /** A batch that cannot get every target leaves all keys exactly as they were. */
  lemma AllOrNone(keys: map<Pid, KeyTarget>, active: map<Pid, ActiveInput>, pids: seq<Pid>, ready: set<Pid>)
    requires KeysAgree(keys, active)
    ensures var r := Acquire(keys, pids, ready, 0);
            r.1 <= |pids| && GiveBack(r.0, pids, r.1) == keys
            && (r.1 == |pids| ==> Acquired(keys, r.0, pids, |pids|))
  {
    AcquireLoop(keys, keys, pids, ready, 0);
    var r := Acquire(keys, pids, ready, 0);
    GiveBackLoop(keys, active, r.0, pids, r.1, r.1);
    var back := GiveBack(r.0, pids, r.1);
    assert pids[r.1..r.1] == [];
    assert back == keys;
  }

  // ----- starting -----

  lemma NewInputKeys(keys: map<Pid, KeyTarget>, active: map<Pid, ActiveInput>, pid: Pid, input: ActiveInput)
    requires KeysAgree(keys, active) && pid in keys && !keys[pid].active && input.sequence.phase.Press?
    ensures KeysAgree(Activate(keys, pid), active[pid := input])
  {
    forall p | p in keys ensures KeyAgrees(Activate(keys, pid)[p], active[pid := input], p) {
      assert KeyAgrees(keys[p], active, p);
    }
  }

  lemma NewInputBatches(active: map<Pid, ActiveInput>, batches: map<BatchId, PendingBatch>, next: U64, pid: Pid, input: ActiveInput)
    requires BatchesAgree(active, batches, next) && pid !in active && !input.completion.Batch?
    ensures BatchesAgree(active[pid := input], batches, next)
  {
    forall id | id in batches ensures Members(active[pid := input], id) == Members(active, id) {}
  }

  lemma NewInputReplies(active: map<Pid, ActiveInput>, batches: map<BatchId, PendingBatch>, log: seq<Notice>, pid: Pid, input: ActiveInput)
    requires RepliesAgree(active, batches, log) && pid !in active
    requires input.completion.Single? ==>
               !HasReply(log, input.completion.requester) && forall a :: !Asks(active, batches, a, input.completion.requester)
    ensures RepliesAgree(active[pid := input], batches, log)
  {
    hide HasReply;
    var more := active[pid := input];
    forall a, q | Asks(more, batches, a, q)
      ensures Asks(active, batches, a, q) || (a == FromInput(pid) && input.completion == Single(q)) {}
  }

  lemma StartOneKeeps(h: Hub, pid: Pid, input: ActiveInput)
    requires Inv(h) && pid !in h.active && pid in h.keys && !h.keys[pid].active && input.sequence.phase.Press?
    requires !input.completion.Batch? && (input.completion.Single? ==> Unused(h, input.completion.requester))
    ensures Inv(h.(keys := Activate(h.keys, pid), active := h.active[pid := input]))
  {
    hide KeysAgree, BatchesAgree, HistoryAgrees, RepliesAgree;
    NewInputKeys(h.keys, h.active, pid, input);
    NewInputBatches(h.active, h.batches, h.nextBatch, pid, input);
    NewInputReplies(h.active, h.batches, h.log, pid, input);
  }

  lemma StartSingleKeeps(h: Hub, w: World, pid: Pid, strokes: Strokes, q: Requester)
    requires Inv(h) && Unused(h, q)
    ensures Inv(StartSingle(h, w, pid, strokes, q))
  {
    hide Inv, Unused, Finished, Reply;
    ReplyKeeps(h, q, false);
    if pid !in h.active && CanBegin(h.keys, pid, w.ready) {
      assert KeysAgree(h.keys, h.active) by { InvParts(h); }
      BeginThenFinish(h.keys, h.active, pid);
      StartOneKeeps(h, pid, ActiveInput(KeySequencer.Begin(strokes, w.now), Single(q)));
    }
  }

  lemma InvParts(h: Hub)
    requires Inv(h)
    ensures KeysAgree(h.keys, h.active) && BatchesAgree(h.active, h.batches, h.nextBatch)
    ensures HistoryAgrees(h.batches, h.nextBatch, h.log) && RepliesAgree(h.active, h.batches, h.log)
  {}

  lemma StartLocalKeeps(h: Hub, w: World, pid: Pid, stroke: Stroke)
    requires Inv(h)
    ensures Inv(StartLocal(h, w, pid, stroke))
  {
    hide Inv, Finished;
    if pid !in h.active && CanBegin(h.keys, pid, w.ready) {
      assert KeysAgree(h.keys, h.active) by { InvParts(h); }
      BeginThenFinish(h.keys, h.active, pid);
      StartOneKeeps(h, pid, ActiveInput(KeySequencer.Begin([stroke], w.now), Local));
    }
  }

  // ----- starting a batch -----

  /** The first n members are enlisted, each waiting at its first press. */
  ghost predicate Enlisted(active: map<Pid, ActiveInput>, more: map<Pid, ActiveInput>, pids: seq<Pid>, id: BatchId, n: nat)
    requires n <= |pids|
  {
    more.Keys == active.Keys + (set p | p in pids[..n])
    && forall p | p in more ::
         if p in pids[..n] then more[p].completion == Batch(id) && more[p].sequence.phase.Press?
         else p in active && more[p] == active[p]
  }

  lemma {:induction false} EnlistLoop(active: map<Pid, ActiveInput>, members: seq<Member>, id: BatchId, now: nat, n: nat)
    requires n <= |members|
    ensures Enlisted(active, Enlist(active, members, id, now, n), Pids(members), id, n)
  {
    if n > 0 {
      EnlistLoop(active, members, id, now, n - 1);
      var pids := Pids(members);
      assert pids[..n] == pids[..n - 1] + [pids[n - 1]];
    }
  }

  lemma BatchKeys(h: Hub, keys: map<Pid, KeyTarget>, more: map<Pid, ActiveInput>, pids: seq<Pid>, id: BatchId)
    requires KeysAgree(h.keys, h.active) && Acquired(h.keys, keys, pids, |pids|) && Enlisted(h.active, more, pids, id, |pids|)
    ensures KeysAgree(keys, more)
  {
    assert pids[..|pids|] == pids;
    forall p | p in keys ensures KeyAgrees(keys[p], more, p) {
      assert KeyAgrees(h.keys[p], h.active, p);
      if p in pids {
        var i :| 0 <= i < |pids| && pids[i] == p;
        assert !h.keys[pids[i]].active;
      }
    }
  }

  lemma BatchBatches(h: Hub, more: map<Pid, ActiveInput>, pids: seq<Pid>, id: BatchId, b: PendingBatch)
    requires BatchesAgree(h.active, h.batches, h.nextBatch) && Enlisted(h.active, more, pids, id, |pids|)
    requires id == h.nextBatch + 1 && pids != [] && (forall p | p in pids :: p !in h.active)
    requires b.remaining == set p | p in pids
    ensures BatchesAgree(more, h.batches[id := b], id)
  {
    assert pids[..|pids|] == pids;
    assert pids[0] in b.remaining;
    forall p | p in more && more[p].completion == Batch(id) ensures p in pids {}
    assert Members(more, id) == b.remaining;
    forall other | other in h.batches ensures Members(more, other) == Members(h.active, other) {}
  }

  lemma BatchHistory(h: Hub, id: BatchId, b: PendingBatch)
    requires HistoryAgrees(h.batches, h.nextBatch, h.log) && id == h.nextBatch + 1 && !b.failed
    ensures HistoryAgrees(h.batches[id := b], id, h.log)
  {}

  lemma BatchReplies(h: Hub, more: map<Pid, ActiveInput>, pids: seq<Pid>, id: BatchId, b: PendingBatch)
    requires RepliesAgree(h.active, h.batches, h.log) && Unused(h, b.requester)
    requires Enlisted(h.active, more, pids, id, |pids|) && id !in h.batches
    ensures RepliesAgree(more, h.batches[id := b], h.log)
  {
    hide HasReply;
    assert pids[..|pids|] == pids;
    var all := h.batches[id := b];
    forall a, q | Asks(more, all, a, q) ensures AskedBefore(h, id, b, a, q) { NewAsker(h, more, pids, id, b, a, q); }
    hide Asks, Enlisted;
    forall a, c, q | Asks(more, all, a, q) && Asks(more, all, c, q) ensures a == c {
      assert AskedBefore(h, id, b, a, q) && AskedBefore(h, id, b, c, q);
    }
  }

  predicate AskedBefore(h: Hub, id: BatchId, b: PendingBatch, a: Asker, q: Requester) {
    Asks(h.active, h.batches, a, q) || (a == FromBatch(id) && q == b.requester)
  }

  lemma NewAsker(h: Hub, more: map<Pid, ActiveInput>, pids: seq<Pid>, id: BatchId, b: PendingBatch, a: Asker, q: Requester)
    requires Enlisted(h.active, more, pids, id, |pids|) && Asks(more, h.batches[id := b], a, q)
    ensures AskedBefore(h, id, b, a, q)
  { assert pids[..|pids|] == pids; }

  lemma StartBatchKeeps(h: Hub, w: World, members: seq<Member>, q: Requester)
    requires Inv(h) && Unused(h, q) && members != [] && h.nextBatch < U64_MAX
    ensures Inv(StartBatch(h, w, members, q))
  {
    hide KeysAgree, BatchesAgree, HistoryAgrees, RepliesAgree, Unused, Acquire, GiveBack, Enlist, Reply, Acquired, Enlisted;
    var pids := Pids(members);
    ReplyKeeps(h, q, false);
    AllOrNone(h.keys, h.active, pids, w.ready);
    var r := Acquire(h.keys, pids, w.ready, 0);
    assert h.(keys := h.keys) == h;
    if Prepared(h, w, members) && r.1 == |members| {
      var id := SatAdd(h.nextBatch, 1);
      var more := Enlist(h.active, members, id, w.now, |members|);
      var b := PendingBatch(set p | p in pids, false, q);
      EnlistLoop(h.active, members, id, w.now, |members|);
      BatchKeys(h, r.0, more, pids, id);
      assert forall p | p in pids :: p !in h.active;
      BatchBatches(h, more, pids, id, b);
      BatchHistory(h, id, b);
      NotYet(h, id);
      BatchReplies(h, more, pids, id, b);
    }
  }

  lemma NotYet(h: Hub, id: BatchId)
    requires BatchesAgree(h.active, h.batches, h.nextBatch) && id > h.nextBatch
    ensures id !in h.batches
  {}

  // ----- advancing -----

  /** The key loop touches one target only, and gets through or stays combined. */
  lemma {:induction false} SetKeysOnly(keys: map<Pid, KeyTarget>, pid: Pid, scans: seq<Scan>, pressed: bool)
    requires pid in keys ==> Combined(keys[pid])
    ensures var r := SetKeys(keys, pid, scans, pressed);
            r.0.Keys == keys.Keys && (forall p | p in keys && p != pid :: r.0[p] == keys[p])
            && (pid in keys ==> Combined(r.0[pid]) && r.0[pid].active == keys[pid].active && r.0[pid].broadcast == keys[pid].broadcast)
            && (r.1 && pid in keys && keys[pid].active ==> SetAll(keys[pid], scans, pressed) == Some(r.0[pid]))
            && (pid !in keys || !keys[pid].active ==> r.0 == keys)
    decreases |scans|
  {
    if scans != [] && pid in keys {
      SettingKeepsCombined(keys[pid], scans[0], pressed);
      var n := SetTargeted(keys[pid], scans[0], pressed);
      if n.Some? {
        SetKeysOnly(keys[pid := n.value], pid, scans[1..], pressed);
      }
    }
  }

  /** The due step of one input, on the keys. */
  lemma MoveKeys(keys: map<Pid, KeyTarget>, active: map<Pid, ActiveInput>, pid: Pid, now: nat)
    requires KeysAgree(keys, active) && pid in active && !active[pid].sequence.phase.Finish?
    ensures var q := active[pid].sequence;
            var r := SetKeys(keys, pid, PhaseScans(q.strokes[q.index], q.phase), Presses(q.phase));
            r.1 ==> KeysAgree(r.0, active[pid := active[pid].(sequence := NextPhase(q, now))])
  {
    hide PhaseScans, SetKeys, SetAll, NextPhase, HeldAt, Presses;
    var q := active[pid].sequence;
    var r := SetKeys(keys, pid, PhaseScans(q.strokes[q.index], q.phase), Presses(q.phase));
    var more := active[pid := active[pid].(sequence := NextPhase(q, now))];
    SetKeysOnly(keys, pid, PhaseScans(q.strokes[q.index], q.phase), Presses(q.phase));
    if r.1 {
      forall p | p in r.0 ensures KeyAgrees(r.0[p], more, p) {
        assert KeyAgrees(keys[p], active, p);
        if p == pid && keys[pid].active { StepHoldsExactly(keys[pid], q, now); }
      }
    }
  }

  /** Whatever the key loop did, finishing the target puts its keys up. */
  lemma FinishKeys(keys: map<Pid, KeyTarget>, active: map<Pid, ActiveInput>, pid: Pid)
    requires forall p | p in keys :: if p == pid then Combined(keys[p]) else KeyAgrees(keys[p], active, p)
    ensures KeysAgree(Finished(keys, pid), active - {pid})
  {
    if pid in keys { FinishLeavesKeysUp(keys[pid]); }
  }

  lemma LeavingMembers(active: map<Pid, ActiveInput>, pid: Pid, id: BatchId)
    ensures Members(active - {pid}, id) == Members(active, id) - {pid}
  {}

  lemma LeaveOther(active: map<Pid, ActiveInput>, batches: map<BatchId, PendingBatch>, next: U64, pid: Pid)
    requires BatchesAgree(active, batches, next) && pid in active && !active[pid].completion.Batch?
    ensures BatchesAgree(active - {pid}, batches, next)
  {
    hide Members;
    forall id | id in batches ensures Members(active - {pid}, id) == Members(active, id) {
      LeavingMembers(active, pid, id);
      NotMember(active, pid, id);
    }
  }

  lemma NotMember(active: map<Pid, ActiveInput>, pid: Pid, id: BatchId)
    requires pid in active && active[pid].completion != Batch(id)
    ensures pid !in Members(active, id)
  {}

  lemma LeaveReplies(active: map<Pid, ActiveInput>, batches: map<BatchId, PendingBatch>, log: seq<Notice>, pid: Pid)
    requires RepliesAgree(active, batches, log)
    ensures RepliesAgree(active - {pid}, batches, log)
  {
    hide HasReply;
    forall a, q | Asks(active - {pid}, batches, a, q) ensures Asks(active, batches, a, q) {}
  }

  /** The requester of an input is free for its one reply once the input is gone. */
  lemma LeavingIsUnused(h: Hub, pid: Pid)
    requires RepliesAgree(h.active, h.batches, h.log) && pid in h.active && h.active[pid].completion.Single?
    ensures var q := h.active[pid].completion.requester;
            !HasReply(h.log, q) && forall a :: !Asks(h.active - {pid}, h.batches, a, q)
  {
    hide HasReply;
    var q := h.active[pid].completion.requester;
    assert Asks(h.active, h.batches, FromInput(pid), q);
    forall a | Asks(h.active - {pid}, h.batches, a, q) ensures Asks(h.active, h.batches, a, q) {}
  }

  /** A batch loses one member: the books before anybody is told. */
  function Shrunk(b: PendingBatch, pid: Pid, failed: bool): PendingBatch {
    b.(remaining := b.remaining - {pid}, failed := b.failed || failed)
  }

  lemma ShrinkBatches(active: map<Pid, ActiveInput>, batches: map<BatchId, PendingBatch>, next: U64, pid: Pid, id: BatchId, failed: bool)
    requires BatchesAgree(active, batches, next) && pid in active && active[pid].completion == Batch(id)
    ensures var b := Shrunk(batches[id], pid, failed);
            if b.remaining != {} then BatchesAgree(active - {pid}, batches[id := b], next)
            else BatchesAgree(active - {pid}, batches - {id}, next)
  {
    hide Members;
    forall x | x in batches ensures Members(active - {pid}, x) == Members(active, x) - {pid} { LeavingMembers(active, pid, x); }
    forall x | x in batches && x != id ensures pid !in Members(active, x) { NotMember(active, pid, x); }
    forall p | p in active && active[p].completion == Batch(id) ensures p in Members(active, id) { IsMember(active, p, id); }
  }

  lemma IsMember(active: map<Pid, ActiveInput>, pid: Pid, id: BatchId)
    requires pid in active && active[pid].completion == Batch(id)
    ensures pid in Members(active, id)
  {}

  lemma ShrinkHistory(batches: map<BatchId, PendingBatch>, next: U64, log: seq<Notice>, pid: Pid, id: BatchId, failed: bool)
    requires HistoryAgrees(batches, next, log) && id in batches && id <= next
    ensures var after := log + [MemberDone(id, pid, failed)];
            HistoryAgrees(batches[id := Shrunk(batches[id], pid, failed)], next, after)
            && HistoryAgrees(batches - {id}, next, after)
            && (Shrunk(batches[id], pid, failed).failed <==> SomeMemberFailed(after, id))
  {
    hide SomeMemberFailed;
    forall x ensures SomeMemberFailed(log + [MemberDone(id, pid, failed)], x) <==> SomeMemberFailed(log, x) || (x == id && failed) {
      ReplyHistory(log, MemberDone(id, pid, failed), x, 0);
    }
  }

  lemma ShrinkReplies(active: map<Pid, ActiveInput>, batches: map<BatchId, PendingBatch>, log: seq<Notice>, pid: Pid, id: BatchId, failed: bool)
    requires RepliesAgree(active, batches, log) && id in batches
    ensures var after := log + [MemberDone(id, pid, failed)];
            RepliesAgree(active, batches[id := Shrunk(batches[id], pid, failed)], after)
            && RepliesAgree(active, batches - {id}, after)
            && !HasReply(after, batches[id].requester)
            && forall a :: !Asks(active, batches - {id}, a, batches[id].requester)
  {
    hide HasReply;
    var after := log + [MemberDone(id, pid, failed)];
    forall q ensures HasReply(after, q) <==> HasReply(log, q) { ReplyHistory(log, MemberDone(id, pid, failed), id, q); }
    var shrunk, gone := batches[id := Shrunk(batches[id], pid, failed)], batches - {id};
    forall a, q ensures Asks(active, shrunk, a, q) <==> Asks(active, batches, a, q) {}
    forall a, q ensures Asks(active, gone, a, q) <==> Asks(active, batches, a, q) && a != FromBatch(id) {}
    assert Asks(active, batches, FromBatch(id), batches[id].requester);
    hide Asks;
  }

  /** Everything but the keys of `pid`, which may be in the middle of a phase. */
  ghost predicate InvBut(h: Hub, pid: Pid) {
    (forall p | p in h.keys :: if p == pid then Combined(h.keys[p]) else KeyAgrees(h.keys[p], h.active, p))
    && BatchesAgree(h.active, h.batches, h.nextBatch)
    && HistoryAgrees(h.batches, h.nextBatch, h.log) && RepliesAgree(h.active, h.batches, h.log)
  }

  lemma InvIsInvBut(h: Hub, pid: Pid)
    requires Inv(h)
    ensures InvBut(h, pid)
  {}

  lemma FinishSingleKeeps(h: Hub, w: World, pid: Pid, ending: Ending)
    requires InvBut(h, pid) && pid in h.active && !h.active[pid].completion.Batch?
    ensures Inv(FinishInput(h, w, pid, ending))
  {
    hide KeyAgrees, KeysAgree, BatchesAgree, HistoryAgrees, RepliesAgree, Reply, Finished;
    FinishKeys(h.keys, h.active, pid);
    LeaveOther(h.active, h.batches, h.nextBatch, pid);
    LeaveReplies(h.active, h.batches, h.log, pid);
    var released := h.(keys := Finished(h.keys, pid), active := h.active - {pid});
    assert Inv(released);
    if h.active[pid].completion.Single? {
      LeavingIsUnused(h, pid);
      ReplyKeeps(released, h.active[pid].completion.requester, ending.Delivered?);
    }
  }

  /** The one reply of a batch: sent to a listening requester when its last member is
      released, not before, and Ok exactly when no member failed. */
  ghost predicate BatchLeft(h: Hub, t: Hub, w: World, id: BatchId, pid: Pid, failed: bool) {
    var noted := h.log + [MemberDone(id, pid, failed)];
    id in h.batches
    && (id in t.batches <==> Members(t.active, id) != {})
    && t.batches - {id} == h.batches - {id} && t.nextBatch == h.nextBatch
    && (id in t.batches ==> t.log == noted && t.batches[id].requester == h.batches[id].requester)
    && (id !in t.batches && h.batches[id].requester in w.open ==>
          t.log == noted + [Replied(h.batches[id].requester, !SomeMemberFailed(noted, id))])
    && (id !in t.batches && h.batches[id].requester !in w.open ==> t.log == noted)
  }

  lemma FinishMemberKeeps(h: Hub, w: World, pid: Pid, ending: Ending)
    requires InvBut(h, pid) && pid in h.active && h.active[pid].completion.Batch?
    ensures Inv(FinishInput(h, w, pid, ending))
  {
    var id, failed := h.active[pid].completion.id, ending.Failed?;
    assert id in h.batches && id <= h.nextBatch;
    hide KeyAgrees, KeysAgree, BatchesAgree, HistoryAgrees, RepliesAgree, Finished, SomeMemberFailed, HasReply, Asks, Reply;
    FinishKeys(h.keys, h.active, pid);
    LeaveReplies(h.active, h.batches, h.log, pid);
    ShrinkBatches(h.active, h.batches, h.nextBatch, pid, id, failed);
    ShrinkHistory(h.batches, h.nextBatch, h.log, pid, id, failed);
    ShrinkReplies(h.active - {pid}, h.batches, h.log, pid, id, failed);
    var released := h.(keys := Finished(h.keys, pid), active := h.active - {pid});
    var b := Shrunk(h.batches[id], pid, failed);
    var gone := released.(batches := h.batches - {id}, log := h.log + [MemberDone(id, pid, failed)]);
    if b.remaining == {} {
      assert Inv(gone);
      ReplyKeeps(gone, b.requester, !b.failed);
    }
  }

  lemma MemberLeaves(h: Hub, w: World, pid: Pid, ending: Ending)
    requires InvBut(h, pid) && pid in h.active && h.active[pid].completion.Batch?
    ensures BatchLeft(h, FinishInput(h, w, pid, ending), w, h.active[pid].completion.id, pid, ending.Failed?)
  {
    var id, failed := h.active[pid].completion.id, ending.Failed?;
    assert id in h.batches && id <= h.nextBatch && h.batches[id].remaining == Members(h.active, id);
    LeavingMembers(h.active, pid, id);
    ShrinkHistory(h.batches, h.nextBatch, h.log, pid, id, failed);
    hide BatchesAgree, HistoryAgrees, RepliesAgree, Finished, SomeMemberFailed, Members, LeaveBatch;
    LeavingShape(h.(keys := Finished(h.keys, pid), active := h.active - {pid}), w, id, pid, failed);
  }

  lemma LeavingShape(h: Hub, w: World, id: BatchId, pid: Pid, failed: bool)
    requires id in h.batches && h.batches[id].remaining - {pid} == Members(h.active, id)
    requires Shrunk(h.batches[id], pid, failed).failed <==> SomeMemberFailed(h.log + [MemberDone(id, pid, failed)], id)
    ensures BatchLeft(h, LeaveBatch(h, w, id, pid, failed), w, id, pid, failed)
  {
    hide SomeMemberFailed, Members;
    var t := LeaveBatch(h, w, id, pid, failed);
    if Members(h.active, id) == {} {
      assert t.batches == h.batches - {id};
    } else {
      assert t.batches == h.batches[id := Shrunk(h.batches[id], pid, failed)];
    }
    assert t.batches - {id} == h.batches - {id};
  }

  lemma FinishKeeps(h: Hub, w: World, pid: Pid, ending: Ending)
    requires InvBut(h, pid) && pid in h.active
    ensures Inv(FinishInput(h, w, pid, ending))
  {
    hide Inv, InvBut, FinishInput;
    if h.active[pid].completion.Batch? { FinishMemberKeeps(h, w, pid, ending); } else { FinishSingleKeeps(h, w, pid, ending); }
  }

  /** The hub as the phase's key loop leaves it. */
  lemma MidPhase(h: Hub, pid: Pid, scans: seq<Scan>, pressed: bool)
    requires Inv(h) && pid in h.active
    ensures InvBut(h.(keys := SetKeys(h.keys, pid, scans, pressed).0), pid)
  {
    hide SetKeys, BatchesAgree, HistoryAgrees, RepliesAgree, HeldAt;
    if pid in h.keys { assert KeyAgrees(h.keys[pid], h.active, pid); }
    SetKeysOnly(h.keys, pid, scans, pressed);
    forall p | p in h.keys ensures KeyAgrees(h.keys[p], h.active, p) {}
  }

  lemma MoveBatches(h: Hub, pid: Pid, q: Running)
    requires BatchesAgree(h.active, h.batches, h.nextBatch) && RepliesAgree(h.active, h.batches, h.log) && pid in h.active
    ensures var more := h.active[pid := h.active[pid].(sequence := q)];
            BatchesAgree(more, h.batches, h.nextBatch) && RepliesAgree(more, h.batches, h.log)
  {
    hide HasReply;
    var more := h.active[pid := h.active[pid].(sequence := q)];
    forall id ensures Members(more, id) == Members(h.active, id) {}
    forall a, r ensures Asks(more, h.batches, a, r) <==> Asks(h.active, h.batches, a, r) {}
    hide Asks, Members;
  }

  lemma AdvanceKeeps(h: Hub, w: World, pid: Pid)
    requires Inv(h) && pid in h.active
    ensures Inv(AdvanceOne(h, w, pid))
  {
    hide KeysAgree, BatchesAgree, HistoryAgrees, RepliesAgree, FinishInput, SetKeys, PhaseScans, NextPhase, Closed, InvBut;
    InvIsInvBut(h, pid);
    FinishKeeps(h, w, pid, Abandoned); FinishKeeps(h, w, pid, Failed); FinishKeeps(h, w, pid, Delivered);
    var q := h.active[pid].sequence;
    if !q.phase.Finish? {
      var scans := PhaseScans(q.strokes[q.index], q.phase);
      MidPhase(h, pid, scans, Presses(q.phase));
      FinishKeeps(h.(keys := SetKeys(h.keys, pid, scans, Presses(q.phase)).0), w, pid, Failed);
      MoveKeys(h.keys, h.active, pid, w.now);
      MoveBatches(h, pid, NextPhase(q, w.now));
    }
  }

  lemma {:induction false} AdvanceAllKeeps(h: Hub, w: World, order: seq<Pid>, n: nat)
    requires Inv(h) && n <= |order|
    ensures Inv(AdvanceAll(h, w, order, n))
  {
    if n > 0 {
      hide Inv, AdvanceOne;
      AdvanceAllKeeps(h, w, order, n - 1);
      var g := AdvanceAll(h, w, order, n - 1);
      if order[n - 1] in g.active { AdvanceKeeps(g, w, order[n - 1]); }
    }
  }

  // ----- the other steps -----

  lemma BroadcastKeeps(h: Hub, scan: Scan, pressed: bool, foreground: Pid)
    requires Inv(h) && ValidScan(scan)
    ensures Inv(BroadcastKey(h, scan, pressed, foreground))
  {
    hide BatchesAgree, HistoryAgrees, RepliesAgree, HeldAt, SetBroadcast;
    var t := BroadcastKey(h, scan, pressed, foreground);
    forall p | p in t.keys ensures KeyAgrees(t.keys[p], t.active, p) {
      assert KeyAgrees(h.keys[p], h.active, p);
      SettingKeepsCombined(h.keys[p], scan, pressed);
      BroadcastOnly(h.keys[p], scan, pressed);
    }
  }

  lemma BroadcastOnly(k: KeyTarget, scan: Scan, pressed: bool)
    ensures SetBroadcast(k, scan, pressed).targeted == k.targeted && SetBroadcast(k, scan, pressed).active == k.active
  {}

  lemma ReleaseKeeps(h: Hub, except: Option<Pid>)
    requires Inv(h)
    ensures Inv(ReleaseBroadcast(h, except))
  {
    hide BatchesAgree, HistoryAgrees, RepliesAgree, HeldAt, ClearBroadcast;
    var t := ReleaseBroadcast(h, except);
    forall p | p in t.keys ensures KeyAgrees(t.keys[p], t.active, p) {
      assert KeyAgrees(h.keys[p], h.active, p);
      ClearKeepsCombined(h.keys[p], 255);
    }
  }

  lemma RetargetKeeps(h: Hub, pids: set<Pid>)
    requires Inv(h)
    ensures Inv(Retarget(h, pids))
  { hide BatchesAgree, HistoryAgrees, RepliesAgree, HeldAt; }

  lemma StopKeeps(h: Hub)
    requires Inv(h)
    ensures Inv(Stop(h)) && forall p | p in h.keys :: Stop(h).keys[p].targeted == {} && !Stop(h).keys[p].active
  {
    hide FinishTargeted;
    forall p | p in h.keys ensures KeyAgrees(Stop(h).keys[p], map[], p) && !Stop(h).keys[p].active {
      assert KeyAgrees(h.keys[p], h.active, p);
      FinishLeavesKeysUp(h.keys[p]);
    }
  }

  lemma StepKeeps(h: Hub, w: World, step: Step)
    requires Inv(h) && Allowed(h, step)
    ensures Inv(StepOnce(h, w, step))
  {
    hide Inv, Unused, StartSingle, StartLocal, StartBatch, AdvanceAll, Retarget, BroadcastKey, ReleaseBroadcast, Stop;
    match step
    case SingleStarted(pid, strokes, q) => StartSingleKeeps(h, w, pid, strokes, q);
    case LocalStarted(pid, stroke) => StartLocalKeeps(h, w, pid, stroke);
    case BatchStarted(members, q) => StartBatchKeeps(h, w, members, q);
    case Advanced(order) => AdvanceAllKeeps(h, w, order, |order|);
    case Retargeted(pids) => RetargetKeeps(h, pids);
    case KeyBroadcast(scan, pressed, foreground) => BroadcastKeeps(h, scan, pressed, foreground);
    case BroadcastReleased(except) => ReleaseKeeps(h, except);
    case Stopped => StopKeeps(h);
  }

  ghost predicate AllAllowed(worlds: seq<World>, steps: seq<Step>)
    requires |worlds| == |steps|
  { forall i | 0 <= i < |steps| :: Allowed(Run(worlds[..i], steps[..i]), steps[i]) }

  lemma AllowedBefore(worlds: seq<World>, steps: seq<Step>)
    requires |worlds| == |steps| && steps != [] && AllAllowed(worlds, steps)
    ensures var n := |steps| - 1;
            AllAllowed(worlds[..n], steps[..n]) && Allowed(Run(worlds[..n], steps[..n]), steps[n])
  { AllowedPrefix(worlds, steps, |steps| - 1); }

  /** Held keys, batch membership, batch errors and replies agree in every reachable state. */
  lemma {:induction false} InvOverRuns(worlds: seq<World>, steps: seq<Step>)
    requires |worlds| == |steps| && AllAllowed(worlds, steps)
    ensures Inv(Run(worlds, steps))
  {
    if steps != [] {
      hide Inv, StepOnce, Allowed, AllAllowed;
      AllowedBefore(worlds, steps);
      var n := |steps| - 1;
      InvOverRuns(worlds[..n], steps[..n]);
      StepKeeps(Run(worlds[..n], steps[..n]), worlds[n], steps[n]);
    } else {
      assert Inv(NEW_HUB);
    }
  }

  /** No targeted key is down on a target without an input of its own. */
  lemma IdleTargetsAreUp(h: Hub, pid: Pid)
    requires Inv(h) && pid in h.keys && pid !in h.active
    ensures h.keys[pid].targeted == {} && h.keys[pid].shared == h.keys[pid].broadcast
  { assert KeyAgrees(h.keys[pid], h.active, pid); }

  // ----- exactly one reply per batch -----

  /** The batch is over and its requester has been told: Ok exactly when no member failed. */
  ghost predicate Answered(log: seq<Notice>, id: BatchId, q: Requester) {
    exists i :: 0 <= i < |log| && log[i] == Replied(q, !SomeMemberFailed(log, id))
  }

  /** Still pending for this requester, or answered. */
  ghost predicate Outcome(h: Hub, id: BatchId, q: Requester) {
    id <= h.nextBatch && if id in h.batches then h.batches[id].requester == q else Answered(h.log, id, q)
  }

  /** One more notice, not about this batch, leaves the answer. */
  lemma AnswerStays(log: seq<Notice>, n: Notice, id: BatchId, q: Requester)
    requires Answered(log, id, q) && !(n.MemberDone? && n.batch == id)
    ensures Answered(log + [n], id, q)
  {
    var i :| 0 <= i < |log| && log[i] == Replied(q, !SomeMemberFailed(log, id));
    ReplyHistory(log, n, id, q);
    assert (log + [n])[i] == log[i];
  }

  /** The step is not about this batch: it at most adds one reply. */
  predicate Elsewhere(h: Hub, t: Hub, id: BatchId) {
    h.nextBatch <= t.nextBatch
    && (id in h.batches <==> id in t.batches)
    && (id in h.batches ==> t.batches[id].requester == h.batches[id].requester)
    && (t.log == h.log || (|t.log| > 0 && t.log[|t.log| - 1].Replied? && t.log == h.log + [t.log[|t.log| - 1]]))
  }

  lemma ElsewhereKeeps(h: Hub, t: Hub, id: BatchId, q: Requester)
    requires Elsewhere(h, t, id) && Outcome(h, id, q)
    ensures Outcome(t, id, q)
  {
    hide Answered;
    if id !in h.batches && t.log != h.log { AnswerStays(h.log, t.log[|t.log| - 1], id, q); }
  }

  lemma StartsAreElsewhere(h: Hub, w: World, step: Step, id: BatchId)
    requires Allowed(h, step) && !step.Advanced? && !step.Stopped? && id <= h.nextBatch
    ensures Elsewhere(h, StepOnce(h, w, step), id)
  {
    hide Acquire, GiveBack, Enlist, Finished, Activate, SetBroadcast, ClearBroadcast, Unused, Prepared;
  }

  lemma MemberOutcome(h: Hub, w: World, pid: Pid, ending: Ending, id: BatchId, q: Requester)
    requires InvBut(h, pid) && pid in h.active && h.active[pid].completion.Batch? && q in w.open && Outcome(h, id, q)
    ensures Outcome(FinishInput(h, w, pid, ending), id, q)
  {
    hide InvBut, FinishInput, Members, Answered;
    MemberLeaves(h, w, pid, ending);
    var t := FinishInput(h, w, pid, ending);
    var left := h.active[pid].completion.id;
    var done := MemberDone(left, pid, ending.Failed?);
    if left == id {
      if id !in t.batches { JustAnswered(h.log + [done], id, q); }
    } else {
      assert id in t.batches <==> id in t.batches - {left};
      assert id in h.batches <==> id in h.batches - {left};
      if id in h.batches { assert t.batches[id] == (t.batches - {left})[id] == (h.batches - {left})[id] == h.batches[id]; }
      if id !in h.batches {
        AnswerStays(h.log, done, id, q);
        if t.log != h.log + [done] { AnswerStays(h.log + [done], t.log[|t.log| - 1], id, q); }
      }
    }
  }

  lemma JustAnswered(log: seq<Notice>, id: BatchId, q: Requester)
    ensures Answered(log + [Replied(q, !SomeMemberFailed(log, id))], id, q)
  {
    var n := Replied(q, !SomeMemberFailed(log, id));
    ReplyHistory(log, n, id, q);
    assert (log + [n])[|log|] == n;
  }

  lemma FinishOutcome(h: Hub, w: World, pid: Pid, ending: Ending, id: BatchId, q: Requester)
    requires InvBut(h, pid) && pid in h.active && q in w.open && Outcome(h, id, q)
    ensures Outcome(FinishInput(h, w, pid, ending), id, q)
  {
    hide InvBut, Outcome, Finished;
    if h.active[pid].completion.Batch? {
      MemberOutcome(h, w, pid, ending, id, q);
    } else {
      ElsewhereKeeps(h, FinishInput(h, w, pid, ending), id, q);
    }
  }

  lemma AdvanceOutcome(h: Hub, w: World, pid: Pid, id: BatchId, q: Requester)
    requires Inv(h) && pid in h.active && q in w.open && Outcome(h, id, q)
    ensures Outcome(AdvanceOne(h, w, pid), id, q)
  {
    hide Inv, InvBut, FinishInput, SetKeys, PhaseScans, NextPhase, Closed, Answered;
    InvIsInvBut(h, pid);
    FinishOutcome(h, w, pid, Abandoned, id, q); FinishOutcome(h, w, pid, Failed, id, q); FinishOutcome(h, w, pid, Delivered, id, q);
    var s := h.active[pid].sequence;
    if !s.phase.Finish? {
      var scans := PhaseScans(s.strokes[s.index], s.phase);
      var mid := h.(keys := SetKeys(h.keys, pid, scans, Presses(s.phase)).0);
      MidPhase(h, pid, scans, Presses(s.phase));
      FinishOutcome(mid, w, pid, Failed, id, q);
    }
  }

  lemma {:induction false} AdvanceAllOutcome(h: Hub, w: World, order: seq<Pid>, n: nat, id: BatchId, q: Requester)
    requires Inv(h) && n <= |order| && q in w.open && Outcome(h, id, q)
    ensures Outcome(AdvanceAll(h, w, order, n), id, q)
  {
    if n > 0 {
      hide Inv, AdvanceOne, Outcome;
      AdvanceAllOutcome(h, w, order, n - 1, id, q);
      AdvanceAllKeeps(h, w, order, n - 1);
      var g := AdvanceAll(h, w, order, n - 1);
      if order[n - 1] in g.active { AdvanceOutcome(g, w, order[n - 1], id, q); }
    }
  }

  lemma StepOutcome(h: Hub, w: World, step: Step, id: BatchId, q: Requester)
    requires Inv(h) && Allowed(h, step) && !step.Stopped? && q in w.open && Outcome(h, id, q)
    ensures Outcome(StepOnce(h, w, step), id, q)
  {
    if step.Advanced? {
      hide Inv, Outcome, AdvanceAll;
      AdvanceAllOutcome(h, w, step.order, |step.order|, id, q);
    } else {
      hide Inv, Answered, StepOnce;
      StartsAreElsewhere(h, w, step, id);
      ElsewhereKeeps(h, StepOnce(h, w, step), id, q);
    }
  }

  lemma {:induction false} OutcomeOverRuns(worlds: seq<World>, steps: seq<Step>, start: nat, id: BatchId, q: Requester)
    requires |worlds| == |steps| && start <= |steps| && AllAllowed(worlds, steps)
    requires forall i | start <= i < |steps| :: !steps[i].Stopped? && q in worlds[i].open
    requires Outcome(Run(worlds[..start], steps[..start]), id, q)
    ensures Outcome(Run(worlds, steps), id, q)
    decreases |steps|
  {
    hide Inv, StepOnce, Outcome, Allowed, AllAllowed;
    if start == |steps| {
      assert worlds[..start] == worlds && steps[..start] == steps;
    } else {
      var n := |steps| - 1;
      AllowedBefore(worlds, steps);
      assert worlds[..n][..start] == worlds[..start] && steps[..n][..start] == steps[..start];
      OutcomeOverRuns(worlds[..n], steps[..n], start, id, q);
      InvOverRuns(worlds[..n], steps[..n]);
      StepOutcome(Run(worlds[..n], steps[..n]), worlds[n], steps[n], id, q);
    }
  }

  /** Waiting for exactly its active members with nobody told anything, or over and its
      requester told exactly once, Ok exactly when no member failed. */
  ghost predicate OneReply(h: Hub, id: BatchId, q: Requester) {
    if id in h.batches then h.batches[id].remaining == Members(h.active, id) != {} && !HasReply(h.log, q)
    else Answered(h.log, id, q) && RepliedOnce(h.log, q)
  }

  ghost predicate RepliedOnce(log: seq<Notice>, q: Requester) {
    forall i, j | 0 <= i < |log| && 0 <= j < |log| && log[i].Replied? && log[j].Replied? ::
      log[i].requester == q == log[j].requester ==> i == j
  }

  lemma OutcomeMeans(h: Hub, id: BatchId, q: Requester)
    requires Inv(h) && Outcome(h, id, q)
    ensures OneReply(h, id, q)
  {
    hide HasReply, Answered;
    if id in h.batches { assert Asks(h.active, h.batches, FromBatch(id), q); }
  }

  /** From the moment a batch is pending, as long as its requester listens and the
      dispatcher runs, every later state is as OneReply says. */
  lemma BatchGetsOneReply(worlds: seq<World>, steps: seq<Step>, start: nat, id: BatchId, q: Requester)
    requires |worlds| == |steps| && start <= |steps| && AllAllowed(worlds, steps)
    requires forall i | start <= i < |steps| :: !steps[i].Stopped? && q in worlds[i].open
    requires var h := Run(worlds[..start], steps[..start]); id in h.batches && h.batches[id].requester == q
    ensures OneReply(Run(worlds, steps), id, q)
  {
    hide OneReply, Allowed, AllAllowed, StepOnce;
    assert Outcome(Run(worlds[..start], steps[..start]), id, q) by {
      assert AllAllowed(worlds[..start], steps[..start]) by { AllowedPrefix(worlds, steps, start); }
      InvOverRuns(worlds[..start], steps[..start]);
      PendingIsOutcome(Run(worlds[..start], steps[..start]), id);
    }
    OutcomeOverRuns(worlds, steps, start, id, q);
    InvOverRuns(worlds, steps);
    OutcomeMeans(Run(worlds, steps), id, q);
  }

  lemma PendingIsOutcome(h: Hub, id: BatchId)
    requires Inv(h) && id in h.batches
    ensures Outcome(h, id, h.batches[id].requester)
  {}

  lemma AllowedPrefix(worlds: seq<World>, steps: seq<Step>, n: nat)
    requires |worlds| == |steps| && n <= |steps| && AllAllowed(worlds, steps)
    ensures AllAllowed(worlds[..n], steps[..n])
  {
    hide Run, Allowed;
    forall i | 0 <= i < n ensures Allowed(Run(worlds[..n][..i], steps[..n][..i]), steps[..n][i]) {
      assert worlds[..n][..i] == worlds[..i] && steps[..n][..i] == steps[..i] && steps[..n][i] == steps[i];
    }
  }
}
