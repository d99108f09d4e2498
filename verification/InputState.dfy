/** The objects behind targeted input. `KeyBuffer` holds one target's fixed-size key
    arrays; `InputHub` is the owner thread's bookkeeping. Every method is proved against
    its function in KeySequencer or InputDelivery. */
module InputState {
  import opened Foundations
  import opened KeySequencer
  import opened InputDelivery

  /** The offsets that are set. */
  ghost function Down(s: seq<bool>): set<Scan> { set x: Scan | x < |s| && s[x] }

  lemma DownAfter(s: seq<bool>, scan: Scan, value: bool)
    requires |s| == 256
    ensures Down(s[scan := value]) == if value then Down(s) + {scan} else Down(s) - {scan}
  {}

  class KeyBuffer {
    const broadcast: array<bool>
    const targeted: array<bool>
    const shared: array<bool>
    var active: bool

    ghost predicate Valid()
      reads this
    {
      broadcast.Length == targeted.Length == shared.Length == 256
      && broadcast != targeted && broadcast != shared && targeted != shared
    }

    ghost function View(): KeyTarget
      reads this, broadcast, targeted, shared
    { KeyTarget(Down(broadcast[..]), Down(targeted[..]), Down(shared[..]), active) }

    constructor ()
      ensures Valid() && View() == NEW_TARGET && fresh(broadcast) && fresh(targeted) && fresh(shared)
    {
      broadcast := new bool[256](i => false);
      targeted := new bool[256](i => false);
      shared := new bool[256](i => false);
      active := false;
      new;
      assert Down(broadcast[..]) == Down(targeted[..]) == Down(shared[..]) == {};
    }

    /** `write_combined_key`. */
    method WriteCombined(scan: Scan)
      requires Valid()
      modifies shared
      ensures View() == WriteKey(old(View()), scan)
    {
      DownAfter(shared[..], scan, broadcast[scan] || targeted[scan]);
      ghost var before := shared[..];
      shared[scan] := broadcast[scan] || targeted[scan];
      assert shared[..] == before[scan := broadcast[scan] || targeted[scan]];
    }

    /** `set_targeted_key`. */
    method SetTargetedKey(scan: Scan, pressed: bool) returns (ok: bool)
      requires Valid()
      modifies targeted, shared
      ensures match SetTargeted(old(View()), scan, pressed)
              case None => !ok && View() == old(View())
              case Some(k) => ok && View() == k
    {
      if !ValidScan(scan) || !active { return false; }
      DownAfter(targeted[..], scan, pressed);
      ghost var before := targeted[..];
      targeted[scan] := pressed;
      assert targeted[..] == before[scan := pressed];
      WriteCombined(scan);
      ok := true;
    }

    method SetBroadcastKey(scan: Scan, pressed: bool)
      requires Valid()
      modifies broadcast, shared
      ensures View() == SetBroadcast(old(View()), scan, pressed)
    {
      DownAfter(broadcast[..], scan, pressed);
      ghost var before := broadcast[..];
      broadcast[scan] := pressed;
      assert broadcast[..] == before[scan := pressed];
      WriteCombined(scan);
    }

    /** `finish_targeted_input`: offsets 0 to 254. */
    method FinishInput()
      requires Valid()
      modifies this`active, targeted, shared
      ensures View() == FinishTargeted(old(View()))
    {
      for n := 0 to 255
        invariant active == old(active) && View() == ReleaseTargeted(old(View()), n)
      {
        if targeted[n] {
          DownAfter(targeted[..], n, false);
          ghost var before := targeted[..];
          targeted[n] := false;
          assert targeted[..] == before[n := false];
          WriteCombined(n);
        }
      }
      active := false;
    }

    /** The broadcast half of `set_active(false)`. */
    method ReleaseBroadcastKeys()
      requires Valid()
      modifies broadcast, shared
      ensures View() == ClearBroadcast(old(View()), 255)
    {
      for n := 0 to 255
        invariant View() == ClearBroadcast(old(View()), n)
      {
        SetBroadcastKey(n, false);
      }
    }
  }

  class InputHub {
    var keys: map<Pid, KeyTarget>
    var active: map<Pid, ActiveInput>
    var batches: map<BatchId, PendingBatch>
    var nextBatch: U64
    var log: seq<Notice>

    function View(): Hub
      reads this
    { Hub(keys, active, batches, nextBatch, log) }

    constructor ()
      ensures View() == NEW_HUB
    { keys, active, batches, nextBatch, log := map[], map[], map[], 0, []; }

    method Send(q: Requester, ok: bool)
      modifies this`log
      ensures View() == Reply(old(View()), q, ok)
    { log := log + [Replied(q, ok)]; }

    method ReleaseTarget(pid: Pid)
      modifies this`keys
      ensures keys == Finished(old(keys), pid)
    {
      if pid in keys { keys := keys[pid := FinishTargeted(keys[pid])]; }
    }

    method BeginTarget(pid: Pid, ready: set<Pid>) returns (ok: bool)
      modifies this`keys
      ensures ok == CanBegin(old(keys), pid, ready)
      ensures keys == if ok then Activate(old(keys), pid) else old(keys)
    {
      ok := pid in keys && pid in ready && !keys[pid].active;
      if ok { keys := keys[pid := keys[pid].(active := true)]; }
    }

    /** `start_resolved_input`. */
    method StartOne(w: World, pid: Pid, strokes: Strokes, q: Requester)
      modifies this
      ensures View() == StartSingle(old(View()), w, pid, strokes, q)
    {
      hide Finished, Activate, CanBegin;
      if q !in w.open { return; }
      if pid in active { Send(q, false); return; }
      var ok := BeginTarget(pid, w.ready);
      if !ok { Send(q, false); return; }
      if active == map[] && !w.timer {
        ReleaseTarget(pid);
        Send(q, false);
        return;
      }
      active := active[pid := ActiveInput(KeySequencer.Begin(strokes, w.now), Single(q))];
    }

    /** `send_invite_follow`. */
    method StartOwn(w: World, pid: Pid, stroke: Stroke)
      modifies this
      ensures View() == StartLocal(old(View()), w, pid, stroke)
    {
      hide Finished, Activate, CanBegin;
      if pid in active { return; }
      var ok := BeginTarget(pid, w.ready);
      if !ok { return; }
      if active == map[] && !w.timer {
        ReleaseTarget(pid);
        return;
      }
      active := active[pid := ActiveInput(KeySequencer.Begin([stroke], w.now), Local)];
    }

    /** The acquiring loop, giving everything back on the first failure. */
    method AcquireTargets(pids: seq<Pid>, ready: set<Pid>) returns (got: nat)
      modifies this`keys
      ensures (keys, got) == Acquire(old(keys), pids, ready, 0) && got <= |pids|
    {
      got := 0;
      while got < |pids|
        invariant got <= |pids| && Acquire(keys, pids, ready, got) == Acquire(old(keys), pids, ready, 0)
      {
        var ok := BeginTarget(pids[got], ready);
        if !ok { return; }
        got := got + 1;
      }
    }

    method GiveBackTargets(pids: seq<Pid>, n: nat)
      requires n <= |pids|
      modifies this`keys
      ensures keys == GiveBack(old(keys), pids, n)
    {
      for i := 0 to n
        invariant keys == GiveBack(old(keys), pids, i)
      { ReleaseTarget(pids[i]); }
    }

    /** `start_eq_action_batch`. */
    method StartAll(w: World, members: seq<Member>, q: Requester)
      modifies this
      ensures View() == StartBatch(old(View()), w, members, q)
    {
      hide Acquire, GiveBack, Enlist;
      if q !in w.open { return; }
      if !Prepared(View(), w, members) { Send(q, false); return; }
      var pids := Pids(members);
      var got := AcquireTargets(pids, w.ready);
      if got < |members| {
        GiveBackTargets(pids, got);
        Send(q, false);
        return;
      }
      if active == map[] && !w.timer {
        GiveBackTargets(pids, |members|);
        Send(q, false);
        return;
      }
      nextBatch := SatAdd(nextBatch, 1);
      batches := batches[nextBatch := PendingBatch(set p | p in pids, false, q)];
      EnlistMembers(members, nextBatch, w.now);
    }

    method EnlistMembers(members: seq<Member>, id: BatchId, now: nat)
      modifies this`active
      ensures active == Enlist(old(active), members, id, now, |members|)
    {
      for i := 0 to |members|
        invariant active == Enlist(old(active), members, id, now, i)
      {
        active := active[members[i].pid := ActiveInput(KeySequencer.Begin([members[i].stroke], now), Batch(id))];
      }
    }

    // ----- advancing -----

    method PressKeys(pid: Pid, scans: seq<Scan>, pressed: bool) returns (ok: bool)
      modifies this`keys
      ensures (keys, ok) == SetKeys(old(keys), pid, scans, pressed)
    {
      for i := 0 to |scans|
        invariant SetKeys(keys, pid, scans[i..], pressed) == SetKeys(old(keys), pid, scans, pressed)
      {
        assert scans[i..][0] == scans[i] && scans[i..][1..] == scans[i + 1..];
        if pid !in keys { return false; }
        var k := SetTargeted(keys[pid], scans[i], pressed);
        if k.None? { return false; }
        keys := keys[pid := k.value];
      }
      ok := true;
    }

    /** `finish_input` for an input already taken out of the map. */
    method Finish(w: World, pid: Pid, input: ActiveInput, ending: Ending)
      requires pid !in active
      modifies this
      ensures View() == FinishInput(old(View()).(active := old(active)[pid := input]), w, pid, ending)
    {
      hide Finished;
      assert active[pid := input] - {pid} == active;
      ReleaseTarget(pid);
      match input.completion
      case Single(q) => if !ending.Abandoned? && q in w.open { Send(q, ending.Delivered?); }
      case Batch(id) => Leave(w, id, pid, ending.Failed?);
      case Local =>
    }

    method Leave(w: World, id: BatchId, pid: Pid, failed: bool)
      modifies this
      ensures View() == LeaveBatch(old(View()), w, id, pid, failed)
    {
      if id !in batches { return; }
      var b := batches[id].(remaining := batches[id].remaining - {pid}, failed := batches[id].failed || failed);
      log := log + [MemberDone(id, pid, failed)];
      if b.remaining != {} {
        batches := batches[id := b];
        return;
      }
      batches := batches - {id};
      if b.requester in w.open { Send(b.requester, !b.failed); }
    }

    /** `advance_one_input` for an input already taken out of the map. */
    method AdvanceInput(w: World, pid: Pid, input: ActiveInput)
      requires pid !in active
      modifies this
      ensures View() == AdvanceOne(old(View()).(active := old(active)[pid := input]), w, pid)
    {
      hide FinishInput, SetKeys, PhaseScans, NextPhase;
      var q := input.sequence;
      if Closed(View(), w, input.completion) { Finish(w, pid, input, Abandoned); return; }
      if pid !in w.present { Finish(w, pid, input, Failed); return; }
      if w.now < q.nextStep {
        active := active[pid := input];
        return;
      }
      if q.phase.Finish? { Finish(w, pid, input, Delivered); return; }
      var ok := PressKeys(pid, PhaseScans(q.strokes[q.index], q.phase), Presses(q.phase));
      if !ok { Finish(w, pid, input, Failed); return; }
      active := active[pid := input.(sequence := NextPhase(q, w.now))];
    }

    /** `advance_input`: the map is emptied first and refilled input by input. */
    method AdvanceInputs(w: World, order: seq<Pid>)
      requires (forall p :: p in order <==> p in active) && forall i, j | 0 <= i < j < |order| :: order[i] != order[j]
      modifies this
      ensures View() == AdvanceAll(old(View()), w, order, |order|)
    {
      var inputs := active;
      active := map[];
      NothingLater(inputs, order);
      for n := 0 to |order|
        invariant DoneSoFar(old(View()), View(), w, inputs, order, n)
      {
        hide DoneSoFar, AdvanceOne;
        AdvanceNext(old(View()), View(), w, inputs, order, n);
        AdvanceInput(w, order[n], inputs[order[n]]);
      }
    }
  }

  /** The loop of `advance_input` after n inputs, the rest still outside the map. */
  ghost predicate DoneSoFar(start: Hub, h: Hub, w: World, inputs: map<Pid, ActiveInput>, order: seq<Pid>, n: nat)
    requires n <= |order|
  {
    (forall p | p in h.active :: p in order[..n]) && With(h, Later(inputs, order, n)) == AdvanceAll(start, w, order, n)
  }

  lemma AdvanceNext(start: Hub, h: Hub, w: World, inputs: map<Pid, ActiveInput>, order: seq<Pid>, n: nat)
    requires n < |order| && (forall p :: p in order <==> p in inputs) && forall i, j | 0 <= i < j < |order| :: order[i] != order[j]
    requires DoneSoFar(start, h, w, inputs, order, n)
    ensures order[n] in inputs && order[n] !in h.active
    ensures DoneSoFar(start, AdvanceOne(h.(active := h.active[order[n] := inputs[order[n]]]), w, order[n]), w, inputs, order, n + 1)
  {
    hide AdvanceOne, Later;
    var pid := order[n];
    LaterStep(inputs, order, n, h.active);
    var taken, rest := h.(active := h.active[pid := inputs[pid]]), Later(inputs, order, n + 1);
    assert With(h, Later(inputs, order, n)) == With(taken, rest);
    AdvanceFrame(taken, w, pid, rest);
    ActiveOnlyAt(taken, w, pid);
    assert order[..n + 1] == order[..n] + [pid];
  }

  /** The hub with some more inputs in its map. */
  function With(h: Hub, more: map<Pid, ActiveInput>): Hub { h.(active := h.active + more) }

  lemma NothingLater(inputs: map<Pid, ActiveInput>, order: seq<Pid>)
    requires forall p :: p in order <==> p in inputs
    ensures Later(inputs, order, 0) == inputs && Later(inputs, order, |order|) == map[]
    ensures forall h: Hub :: With(h, map[]) == h
  {
    assert order[0..] == order;
    forall h: Hub ensures With(h, map[]) == h { assert h.active + map[] == h.active; }
  }

  lemma OrderSplits(order: seq<Pid>, n: nat)
    requires n < |order| && forall i, j | 0 <= i < j < |order| :: order[i] != order[j]
    ensures order[n] !in order[n + 1..] && order[n] !in order[..n]
    ensures forall p | p in order[..n] :: p !in order[n + 1..]
    ensures forall p :: p in order[n..] <==> p == order[n] || p in order[n + 1..]
  { assert order[n..] == [order[n]] + order[n + 1..]; }

  lemma LaterStep(inputs: map<Pid, ActiveInput>, order: seq<Pid>, n: nat, active: map<Pid, ActiveInput>)
    requires n < |order| && (forall p :: p in order <==> p in inputs) && forall i, j | 0 <= i < j < |order| :: order[i] != order[j]
    requires forall p | p in active :: p in order[..n]
    ensures order[n] in inputs && order[n] !in active
    ensures active + Later(inputs, order, n) == active[order[n] := inputs[order[n]]] + Later(inputs, order, n + 1)
    ensures Later(inputs, order, n + 1).Keys !! active[order[n] := inputs[order[n]]].Keys
  {
    var pid, before, after := order[n], Later(inputs, order, n), Later(inputs, order, n + 1);
    assert pid in order;
    OrderSplits(order, n);
    LaterIs(inputs, order, n);
    forall p | p in active ensures p !in after { LaterKeys(inputs, order, n + 1, p); }
    LaterKeys(inputs, order, n + 1, pid);
    hide Later;
    Shift(active, before, after, pid, inputs[pid]);
  }

  lemma LaterKeys(inputs: map<Pid, ActiveInput>, order: seq<Pid>, n: nat, p: Pid)
    requires n <= |order| && p !in order[n..]
    ensures p !in Later(inputs, order, n)
  {}

  lemma LaterIs(inputs: map<Pid, ActiveInput>, order: seq<Pid>, n: nat)
    requires n < |order| && order[n] in inputs
    ensures Later(inputs, order, n) == Later(inputs, order, n + 1)[order[n] := inputs[order[n]]]
  {
    assert order[n..] == [order[n]] + order[n + 1..];
    forall p ensures p in order[n..] <==> p == order[n] || p in order[n + 1..] {}
  }

  lemma Shift<K, V>(a: map<K, V>, before: map<K, V>, after: map<K, V>, k: K, v: V)
    requires before == after[k := v] && k !in after
    ensures a + before == a[k := v] + after
  {}

  lemma LeaveFrame(h: Hub, w: World, id: BatchId, pid: Pid, failed: bool, more: map<Pid, ActiveInput>)
    ensures LeaveBatch(With(h, more), w, id, pid, failed) == With(LeaveBatch(h, w, id, pid, failed), more)
    ensures LeaveBatch(h, w, id, pid, failed).active == h.active
  {}

  lemma FinishFrame(h: Hub, w: World, pid: Pid, ending: Ending, more: map<Pid, ActiveInput>)
    requires pid in h.active && more.Keys !! h.active.Keys
    ensures FinishInput(With(h, more), w, pid, ending) == With(FinishInput(h, w, pid, ending), more)
    ensures FinishInput(h, w, pid, ending).active == h.active - {pid}
  {
    hide Finished, LeaveBatch;
    assert (h.active + more) - {pid} == (h.active - {pid}) + more;
    var released := h.(keys := Finished(h.keys, pid), active := h.active - {pid});
    assert With(released, more) == With(h, more).(keys := Finished(h.keys, pid), active := With(h, more).active - {pid});
    if h.active[pid].completion.Batch? {
      LeaveFrame(released, w, h.active[pid].completion.id, pid, ending.Failed?, more);
    }
  }

  lemma ClosedFrame(h: Hub, w: World, c: Completion, more: map<Pid, ActiveInput>)
    ensures Closed(With(h, more), w, c) == Closed(h, w, c)
  {}

  /** The other inputs play no part in advancing one. */
  lemma AdvanceFrame(h: Hub, w: World, pid: Pid, more: map<Pid, ActiveInput>)
    requires pid in h.active && more.Keys !! h.active.Keys
    ensures AdvanceOne(With(h, more), w, pid) == With(AdvanceOne(h, w, pid), more)
  {
    hide FinishInput, SetKeys, PhaseScans, NextPhase, Presses, Closed, With;
    WithIs(h, pid, more);
    ClosedFrame(h, w, h.active[pid].completion, more);
    FinishFrame(h, w, pid, Abandoned, more);
    FinishFrame(h, w, pid, Failed, more);
    FinishFrame(h, w, pid, Delivered, more);
    var q := h.active[pid].sequence;
    if !q.phase.Finish? {
      var keys := SetKeys(h.keys, pid, PhaseScans(q.strokes[q.index], q.phase), Presses(q.phase)).0;
      PhaseFrame(h, w, pid, more, keys, h.active[pid].(sequence := NextPhase(q, w.now)));
    }
  }

  lemma WithIs(h: Hub, pid: Pid, more: map<Pid, ActiveInput>)
    requires pid in h.active && more.Keys !! h.active.Keys
    ensures With(h, more).keys == h.keys && pid in With(h, more).active && With(h, more).active[pid] == h.active[pid]
  {}

  /** A step of one input, taken or failed, beside the others. */
  lemma PhaseFrame(h: Hub, w: World, pid: Pid, more: map<Pid, ActiveInput>, keys: map<Pid, KeyTarget>, moved: ActiveInput)
    requires pid in h.active && more.Keys !! h.active.Keys
    ensures var all := With(h, more);
            pid in all.active
            && FinishInput(all.(keys := keys), w, pid, Failed) == With(FinishInput(h.(keys := keys), w, pid, Failed), more)
            && all.(keys := keys, active := all.active[pid := moved]) == With(h.(keys := keys, active := h.active[pid := moved]), more)
  {
    hide FinishInput;
    FinishFrame(h.(keys := keys), w, pid, Failed, more);
    assert (h.active + more)[pid := moved] == h.active[pid := moved] + more;
  }

  lemma ActiveOnlyAt(h: Hub, w: World, pid: Pid)
    requires pid in h.active
    ensures forall p | p in AdvanceOne(h, w, pid).active :: p in h.active
  {
    hide FinishInput, SetKeys, PhaseScans, NextPhase, Presses;
    FinishFrame(h, w, pid, Abandoned, map[]);
    FinishFrame(h, w, pid, Failed, map[]);
    FinishFrame(h, w, pid, Delivered, map[]);
    var q := h.active[pid].sequence;
    var keys := SetKeys(h.keys, pid, PhaseScans(q.strokes[q.index], q.phase), Presses(q.phase)).0;
    FinishFrame(h.(keys := keys), w, pid, Failed, map[]);
  }

  /** The inputs that the loop has not come to yet. */
  function Later(inputs: map<Pid, ActiveInput>, order: seq<Pid>, n: nat): map<Pid, ActiveInput>
    requires n <= |order|
  { map p | p in inputs && p in order[n..] :: inputs[p] }
}
