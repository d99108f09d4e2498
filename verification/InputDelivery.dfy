/** Targeted input as a whole: starting inputs and batches, advancing them, and who gets
    which reply. crates/stonemite/src/control.rs, on values. */
module InputDelivery {
  import opened Foundations
  import opened KeySequencer

  type Pid = nat
  type BatchId = U64
  /** One reply channel; a channel is given to one command only. */
  type Requester = nat

  datatype Completion = Single(requester: Requester) | Batch(id: BatchId) | Local

  datatype ActiveInput = ActiveInput(sequence: Running, completion: Completion)

  datatype PendingBatch = PendingBatch(remaining: set<Pid>, failed: bool, requester: Requester)

  /** What leaves the owner thread: replies, and members leaving their batch. */
  datatype Notice = Replied(requester: Requester, ok: bool) | MemberDone(batch: BatchId, pid: Pid, failed: bool)

  datatype Hub = Hub(
    keys: map<Pid, KeyTarget>, active: map<Pid, ActiveInput>, batches: map<BatchId, PendingBatch>,
    nextBatch: U64, log: seq<Notice>)

  /** What is true of the outside during one call. */
  datatype World = World(now: nat, open: set<Requester>, present: set<Pid>, ready: set<Pid>, timer: bool)

  /** How one input ended: abandoned by its requester, delivered, or failed. */
  datatype Ending = Abandoned | Delivered | Failed

  // ----- acquiring targets -----

  predicate CanBegin(keys: map<Pid, KeyTarget>, pid: Pid, ready: set<Pid>) {
    pid in keys && pid in ready && !keys[pid].active
  }

  function Activate(keys: map<Pid, KeyTarget>, pid: Pid): map<Pid, KeyTarget>
    requires pid in keys
  { keys[pid := keys[pid].(active := true)] }

  function Finished(keys: map<Pid, KeyTarget>, pid: Pid): map<Pid, KeyTarget> {
    if pid in keys then keys[pid := FinishTargeted(keys[pid])] else keys
  }

  /** The acquiring loop, with how many targets it got. */
  function Acquire(keys: map<Pid, KeyTarget>, pids: seq<Pid>, ready: set<Pid>, n: nat): (map<Pid, KeyTarget>, nat)
    requires n <= |pids|
    decreases |pids| - n
  {
    if n == |pids| || !CanBegin(keys, pids[n], ready) then (keys, n)
    else Acquire(Activate(keys, pids[n]), pids, ready, n + 1)
  }

  /** The first n targets are given back, in order. */
  function GiveBack(keys: map<Pid, KeyTarget>, pids: seq<Pid>, n: nat): map<Pid, KeyTarget>
    requires n <= |pids|
  { if n == 0 then keys else Finished(GiveBack(keys, pids, n - 1), pids[n - 1]) }

  // ----- starting -----

  function Reply(h: Hub, q: Requester, ok: bool): Hub { h.(log := h.log + [Replied(q, ok)]) }

  /** `start_resolved_input`, with the error reply its caller sends. */
  function StartSingle(h: Hub, w: World, pid: Pid, strokes: Strokes, q: Requester): Hub {
    if q !in w.open then h
    else if pid in h.active || !CanBegin(h.keys, pid, w.ready) then Reply(h, q, false)
    else
      var begun := h.(keys := Activate(h.keys, pid));
      if h.active == map[] && !w.timer then Reply(begun.(keys := Finished(begun.keys, pid)), q, false)
      else begun.(active := h.active[pid := ActiveInput(KeySequencer.Begin(strokes, w.now), Single(q))])
  }

  /** `send_invite_follow` after its stroke is resolved. */
  function StartLocal(h: Hub, w: World, pid: Pid, stroke: Stroke): Hub {
    if pid in h.active || !CanBegin(h.keys, pid, w.ready) then h
    else
      var begun := h.(keys := Activate(h.keys, pid));
      if h.active == map[] && !w.timer then begun.(keys := Finished(begun.keys, pid))
      else begun.(active := h.active[pid := ActiveInput(KeySequencer.Begin([stroke], w.now), Local)])
  }

  datatype Member = Member(pid: Pid, stroke: Stroke)

  function Pids(members: seq<Member>): (r: seq<Pid>)
    ensures |r| == |members|
  { seq(|members|, i requires 0 <= i < |members| => members[i].pid) }

  /** `prepare_eq_action_batch` refuses unready and busy targets. */
  predicate Prepared(h: Hub, w: World, members: seq<Member>) {
    forall i | 0 <= i < |members| :: members[i].pid in w.ready && members[i].pid !in h.active
  }

  function Enlist(active: map<Pid, ActiveInput>, members: seq<Member>, id: BatchId, now: nat, n: nat): map<Pid, ActiveInput>
    requires n <= |members|
  {
    if n == 0 then active
    else Enlist(active, members, id, now, n - 1)[
      members[n - 1].pid := ActiveInput(KeySequencer.Begin([members[n - 1].stroke], now), Batch(id))]
  }

  /** `start_eq_action_batch`. */
  function StartBatch(h: Hub, w: World, members: seq<Member>, q: Requester): Hub {
    if q !in w.open then h
    else if !Prepared(h, w, members) then Reply(h, q, false)
    else
      var (keys, got) := Acquire(h.keys, Pids(members), w.ready, 0);
      if got < |members| then Reply(h.(keys := GiveBack(keys, Pids(members), Min(got, |members|))), q, false)
      else if h.active == map[] && !w.timer then Reply(h.(keys := GiveBack(keys, Pids(members), |members|)), q, false)
      else
        var id := SatAdd(h.nextBatch, 1);
        h.(keys := keys, nextBatch := id,
           batches := h.batches[id := PendingBatch(set p | p in Pids(members), false, q)],
           active := Enlist(h.active, members, id, w.now, |members|))
  }

  // ----- advancing -----

  predicate Closed(h: Hub, w: World, c: Completion) {
    match c
    case Single(q) => q !in w.open
    case Batch(id) => id !in h.batches || h.batches[id].requester !in w.open
    case Local => false
  }

  /** `finish_input`: the target is released first, then the bookkeeping. */
  function FinishInput(h: Hub, w: World, pid: Pid, ending: Ending): Hub
    requires pid in h.active
  {
    var input := h.active[pid];
    var released := h.(keys := Finished(h.keys, pid), active := h.active - {pid});
    match input.completion
    case Single(q) =>
      if ending.Abandoned? || q !in w.open then released else Reply(released, q, ending.Delivered?)
    case Batch(id) => LeaveBatch(released, w, id, pid, ending.Failed?)
    case Local => released
  }

  function LeaveBatch(h: Hub, w: World, id: BatchId, pid: Pid, failed: bool): Hub {
    if id !in h.batches then h
    else
      var b := h.batches[id].(remaining := h.batches[id].remaining - {pid}, failed := h.batches[id].failed || failed);
      var noted := h.(batches := h.batches[id := b], log := h.log + [MemberDone(id, pid, failed)]);
      if b.remaining != {} then noted
      else
        var gone := noted.(batches := h.batches - {id});
        if b.requester in w.open then Reply(gone, b.requester, !b.failed) else gone
  }

  /** The key loop of a phase: whether it got through, and the keys either way. */
  function SetKeys(keys: map<Pid, KeyTarget>, pid: Pid, scans: seq<Scan>, pressed: bool): (map<Pid, KeyTarget>, bool)
    decreases |scans|
  {
    if scans == [] then (keys, true)
    else if pid !in keys then (keys, false)
    else
      match SetTargeted(keys[pid], scans[0], pressed)
      case None => (keys, false)
      case Some(k) => SetKeys(keys[pid := k], pid, scans[1..], pressed)
  }

  /** `advance_one_input`. */
  function AdvanceOne(h: Hub, w: World, pid: Pid): Hub
    requires pid in h.active
  {
    var input := h.active[pid];
    var q := input.sequence;
    if Closed(h, w, input.completion) then FinishInput(h, w, pid, Abandoned)
    else if pid !in w.present then FinishInput(h, w, pid, Failed)
    else if w.now < q.nextStep then h
    else if q.phase.Finish? then FinishInput(h, w, pid, Delivered)
    else
      var (keys, ok) := SetKeys(h.keys, pid, PhaseScans(q.strokes[q.index], q.phase), Presses(q.phase));
      if ok then h.(keys := keys, active := h.active[pid := input.(sequence := NextPhase(q, w.now))])
      else FinishInput(h.(keys := keys), w, pid, Failed)
  }

  /** `advance_input`: the inputs in the order the hash map yields them. */
  function AdvanceAll(h: Hub, w: World, order: seq<Pid>, n: nat): Hub
    requires n <= |order|
  {
    if n == 0 then h
    else
      var g := AdvanceAll(h, w, order, n - 1);
      if order[n - 1] in g.active then AdvanceOne(g, w, order[n - 1]) else g
  }

  // ----- the rest of the owner thread -----

  /** Processes come and go; a new one starts with all keys up. */
  function Retarget(h: Hub, pids: set<Pid>): Hub {
    h.(keys := map p | p in pids :: if p in h.keys then h.keys[p] else NEW_TARGET)
  }

  /** A physical key for every target but the foreground one. */
  function BroadcastKey(h: Hub, scan: Scan, pressed: bool, foreground: Pid): Hub {
    h.(keys := map p | p in h.keys :: if p == foreground then h.keys[p] else SetBroadcast(h.keys[p], scan, pressed))
  }

  function ReleaseBroadcast(h: Hub, except: Option<Pid>): Hub {
    h.(keys := map p | p in h.keys :: if except == Some(p) then h.keys[p] else ClearBroadcast(h.keys[p], 255))
  }

  /** `stop`: every input is released, no reply is sent. */
  function Stop(h: Hub): Hub {
    h.(keys := map p | p in h.keys :: if p in h.active then FinishTargeted(h.keys[p]) else h.keys[p],
       active := map[], batches := map[])
  }

  // ----- steps and runs -----

  datatype Step =
    | SingleStarted(pid: Pid, strokes: Strokes, requester: Requester)
    | LocalStarted(pid: Pid, stroke: Stroke)
    | BatchStarted(members: seq<Member>, requester: Requester)
    | Advanced(order: seq<Pid>)
    | Retargeted(pids: set<Pid>)
    | KeyBroadcast(scan: Scan, pressed: bool, foreground: Pid)
    | BroadcastReleased(except: Option<Pid>)
    | Stopped

  function StepOnce(h: Hub, w: World, step: Step): Hub {
    match step
    case SingleStarted(pid, strokes, q) => StartSingle(h, w, pid, strokes, q)
    case LocalStarted(pid, stroke) => StartLocal(h, w, pid, stroke)
    case BatchStarted(members, q) => StartBatch(h, w, members, q)
    case Advanced(order) => AdvanceAll(h, w, order, |order|)
    case Retargeted(pids) => Retarget(h, pids)
    case KeyBroadcast(scan, pressed, foreground) => BroadcastKey(h, scan, pressed, foreground)
    case BroadcastReleased(except) => ReleaseBroadcast(h, except)
    case Stopped => Stop(h)
  }

  const NEW_HUB := Hub(map[], map[], map[], 0, [])

  function Run(worlds: seq<World>, steps: seq<Step>): Hub
    requires |worlds| == |steps|
  {
    if steps == [] then NEW_HUB
    else
      var n := |steps| - 1;
      StepOnce(Run(worlds[..n], steps[..n]), worlds[n], steps[n])
  }
}
