/** What every run of the Mouse Clutch keeps, and how it ends. */
module MouseClutchSafety {
  import opened Foundations
  import opened MouseClutch

  /** Active exactly when somebody owns the clutch; every hold is for its source. */
  ghost predicate Owned(c: Clutch, holds: map<Owner, Hold>) {
    (c.phase.Active? <==> c.local || holds != map[])
    && (c.source.Some? <==> !c.phase.Inactive?)
    && (forall o | o in holds :: c.source == Some(holds[o].source))
    && (c.local ==> c.swallowed.Some?)
  }

  /** The map and the queue of closed sessions agree and are bounded. */
  ghost predicate Remembered(closed: map<Session, U64>, order: seq<Session>) {
    (forall x :: x in order <==> x in closed) && (forall i, j | 0 <= i < j < |order| :: order[i] != order[j])
    && |order| <= REMEMBERED_SESSIONS
  }

  ghost predicate NoClosedHold(holds: map<Owner, Hold>, closed: map<Session, U64>) {
    forall o | o in holds :: o.session !in closed
  }

  /** A flagged target is a selected one, never the source, and never while inactive. */
  ghost predicate Routing(c: Clutch, targets: map<Pid, MouseTarget>) {
    forall pid | pid in targets ::
      targets[pid].flag == targets[pid].selected
      && (targets[pid].flag ==> !c.phase.Inactive? && c.source != Some(pid))
  }

  ghost predicate Inv(s: Router) {
    Owned(s.clutch, s.holds) && Remembered(s.closed, s.closedOrder) && NoClosedHold(s.holds, s.closed)
    && Routing(s.clutch, s.targets)
  }

  /** Hooks and the sampled buttons aside, nothing differs. */
  predicate SameButHooks(a: Router, b: Router) {
    b == a.(clutch := a.clutch.(buttons := b.clutch.buttons), keyboardHook := b.keyboardHook, mouseHook := b.mouseHook)
  }

  lemma HooksOnly(s: Router, w: World)
    ensures SameButHooks(s, Reconcile(s, w))
  {
    hide Install, Uninstall;
    InstallOnly(s, w);
    UninstallOnly(Install(s, w), w);
  }

  lemma InstallOnly(s: Router, w: World)
    ensures SameButHooks(s, Install(s, w))
  { hide KeyboardNeeded, MouseNeeded; }

  lemma UninstallOnly(s: Router, w: World)
    ensures SameButHooks(s, Uninstall(s, w))
  { hide KeyboardNeeded, MouseNeeded; }

  lemma ReconcileKeeps(s: Router, w: World)
    ensures Inv(Reconcile(s, w)) <==> Inv(s)
    ensures Reconcile(s, w).clutch.phase == s.clutch.phase && Reconcile(s, w).holds == s.holds
  { HooksOnly(s, w); }

  lemma ForgetKeeps(closed: map<Session, U64>, order: seq<Session>)
    requires (forall x :: x in order <==> x in closed) && (forall i, j | 0 <= i < j < |order| :: order[i] != order[j])
    ensures Remembered(Forget(closed, order).0, Forget(closed, order).1)
    ensures forall x | x in Forget(closed, order).0 :: x in closed
    ensures |order| <= REMEMBERED_SESSIONS + 1 && order != [] ==> order[|order| - 1] in Forget(closed, order).0
    decreases |order|
  {
    if |order| > REMEMBERED_SESSIONS {
      assert order == [order[0]] + order[1..];
      ForgetKeeps(closed - {order[0]}, order[1..]);
    }
  }

  ghost predicate Within(some: map<Owner, Hold>, all: map<Owner, Hold>) {
    forall o | o in some :: o in all && some[o] == all[o]
  }

  lemma ReleasedOwned(c: Clutch, before: map<Owner, Hold>, holds: map<Owner, Hold>, now: U64)
    requires Owned(c, before) && Within(holds, before)
    ensures Owned(ReleaseIfUnowned(c, now, holds != map[]), holds)
  {
    if holds != map[] {
      var o :| o in holds;
      assert o in before;
    }
  }

  lemma ReleasedRouting(c: Clutch, targets: map<Pid, MouseTarget>, now: U64, remote: bool)
    requires Routing(c, targets)
    ensures Routing(ReleaseIfUnowned(c, now, remote), targets)
  {}

  /** Losing any holds and then releasing if nobody is left keeps everything. */
  lemma ReleaseKeeps(s: Router, holds: map<Owner, Hold>, now: U64)
    requires Inv(s) && Within(holds, s.holds)
    ensures Inv(Released(s.(holds := holds), now))
    ensures |holds| == |s.holds| ==> holds == s.holds
  {
    hide Owned, Routing, Remembered, ReleaseIfUnowned;
    ReleasedOwned(s.clutch, s.holds, holds, now);
    ReleasedRouting(s.clutch, s.targets, now, holds != map[]);
    SameSize(s.holds, holds);
  }

  /** The remembered sessions once `session` is closed. */
  lemma ClosingKeeps(s: Router, session: Session, sequence: U64)
    requires Remembered(s.closed, s.closedOrder) && NoClosedHold(s.holds, s.closed)
    ensures var e := Closing(s, session, sequence);
            Remembered(e.closed, e.closedOrder) && session in e.closed
            && NoClosedHold(e.holds, e.closed) && Within(e.holds, s.holds)
            && e.clutch == s.clutch && e.targets == s.targets
            && forall o | o in e.holds :: o.session != session
  {
    var order := if session in s.closed then s.closedOrder else s.closedOrder + [session];
    ForgetKeeps(s.closed[session := sequence], order);
    if session in s.closed { assert Forget(s.closed[session := sequence], order).1 == order; }
  }

  lemma EndSessionKeeps(s: Router, w: World, session: Session, sequence: U64)
    requires Inv(s)
    ensures var e := EndSession(s, w, session, sequence);
            Inv(e) && session in e.closed && forall o | o in e.holds :: o.session != session
  {
    hide Reconcile, Owned, Routing, Remembered, NoClosedHold, ReleaseIfUnowned, Closing, Within;
    var e := Closing(s, session, sequence);
    ClosingKeeps(s, session, sequence);
    ReleasedOwned(s.clutch, s.holds, e.holds, w.now);
    ReleasedRouting(s.clutch, s.targets, w.now, e.holds != map[]);
    SameHolds(e.holds, s.holds);
    HooksKeepCore(Released(e, w.now), w);
    CoreKeeps(Released(e, w.now), Reconcile(Released(e, w.now), w));
  }

  lemma SameHolds(some: map<Owner, Hold>, all: map<Owner, Hold>)
    requires Within(some, all)
    ensures |some| == |all| ==> some == all
  { SameSize(all, some); }

  lemma SameSize<K, V>(m: map<K, V>, n: map<K, V>)
    requires forall k | k in n :: k in m && n[k] == m[k]
    ensures |n| == |m| ==> n == m
    ensures |n| != |m| ==> m != map[]
  {
    if |n| == |m| {
      assert n.Keys <= m.Keys && |n.Keys| == |m.Keys|;
      SubsetSize(n.Keys, m.Keys);
    }
  }

  lemma CancelKeeps(s: Router, now: U64)
    requires Inv(s)
    ensures Inv(CancelAll(s, now))
  {}

  lemma DeactivateKeeps(s: Router)
    requires Inv(s)
    ensures Inv(DeactivateTargets(s)) && forall pid | pid in s.targets :: !DeactivateTargets(s).targets[pid].flag
  {}

  lemma InactiveIsForced(c: Clutch, holds: map<Owner, Hold>)
    requires Owned(c, holds) && c.phase.Inactive?
    ensures ForceInactive(c) == c.(drainDeadline := 0)
  {}

  /** Bindings and the drain deadline are no part of the invariant. */
  predicate SameCore(a: Router, b: Router) {
    b.holds == a.holds && b.closed == a.closed && b.closedOrder == a.closedOrder && b.targets == a.targets
    && b.clutch.phase == a.clutch.phase && b.clutch.local == a.clutch.local && b.clutch.source == a.clutch.source
    && b.clutch.swallowed == a.clutch.swallowed
  }

  lemma CoreKeeps(a: Router, b: Router)
    requires Inv(a) && SameCore(a, b)
    ensures Inv(b)
  {}

  lemma HooksKeepCore(s: Router, w: World)
    ensures SameCore(s, Reconcile(s, w))
  { HooksOnly(s, w); }

  lemma UnboundKeeps(s: Router)
    requires Inv(s) && s.clutch.phase.Inactive?
    ensures var u := Unbound(s);
            Inv(u) && u.clutch.phase.Inactive? && u.holds == s.holds && u.clutch.swallowed == s.clutch.swallowed
            && u.clutch.local == s.clutch.local && u.targets.Keys == s.targets.Keys
  {
    DeactivateKeeps(s.(binding := None));
    InactiveIsForced(s.clutch, s.holds);
  }

  /** Only an inactive clutch takes a new binding, and it stays inactive. */
  lemma PendingKeeps(s: Router, w: World)
    requires Inv(s)
    ensures var p := ApplyPending(s, w);
            Inv(p) && p.clutch.phase == s.clutch.phase && p.holds == s.holds
            && p.clutch.swallowed == s.clutch.swallowed && p.clutch.local == s.clutch.local
            && p.targets.Keys == s.targets.Keys
    ensures !s.clutch.phase.Inactive? ==> ApplyPending(s, w) == s
  {
    hide Reconcile, Inv, Unbound, ReconcileFails;
    if s.clutch.phase.Inactive? && s.clutch.swallowed.None? && s.pending.Some? {
      var r := Reconcile(Rebound(s, w), w);
      HooksKeepCore(Rebound(s, w), w);
      CoreKeeps(s, r);
      UnboundKeeps(r);
      HooksKeepCore(Unbound(r), w);
      CoreKeeps(Unbound(r), Reconcile(Unbound(r), w));
    }
  }

  lemma RetargetKeeps(s: Router, w: World, source: Pid)
    requires s.clutch.source == Some(source) && !s.clutch.phase.Inactive?
    requires forall pid | pid in s.targets :: s.targets[pid].flag == s.targets[pid].selected
    ensures Routing(s.clutch, Retargeted(s, w, source).targets)
  {}

  /** The key engages the clutch: local ownership, fresh targets. */
  lemma EngageLocal(s: Router, w: World, vk: Vk, source: Pid)
    requires Inv(s) && Activated(s.clutch.(swallowed := Some(vk)), source, HasReadyTargets(s, w, source)).Some?
    ensures var a := Activated(s.clutch.(swallowed := Some(vk)), source, HasReadyTargets(s, w, source)).value;
            Inv(ActivateTargets(s.(clutch := a.(local := true), keyDown := true), w, source))
  {
    hide HasReadyTargets, Retargeted;
    var a := Activated(s.clutch.(swallowed := Some(vk)), source, HasReadyTargets(s, w, source)).value;
    var on := s.(clutch := a.(local := true), keyDown := true);
    SameReadiness(s, on, w, source);
    RetargetKeeps(on, w, source);
    RetargetedOnly(on, w, source);
  }

  lemma SwallowKeeps(s: Router, vk: Option<Vk>, keyDown: bool)
    requires Inv(s) && (vk.Some? || !s.clutch.local)
    ensures Inv(s.(keyDown := keyDown, clutch := s.clutch.(swallowed := vk)))
  {}

  lemma KeyPressedKeeps(s: Router, w: World, vk: Vk)
    requires Inv(s)
    ensures Inv(KeyPressed(s, w, vk))
  {
    hide Inv, Activated, ActivateTargets, HasReadyTargets;
    SwallowKeeps(s, Some(vk), true);
    assert Inv(s.(keyDown := true)) by { SwallowedIsFine(s); }
    if w.foreground.Some? {
      var source := w.foreground.value;
      if Activated(s.clutch.(swallowed := Some(vk)), source, HasReadyTargets(s, w, source)).Some? {
        EngageLocal(s, w, vk, source);
      }
    }
  }

  lemma SwallowedIsFine(s: Router)
    requires Inv(s)
    ensures Inv(s.(keyDown := true))
  {}

  lemma RetargetedOnly(s: Router, w: World, source: Pid)
    ensures Retargeted(s, w, source) == s.(targets := Retargeted(s, w, source).targets)
  {}

  /** Readiness depends on the targets and the eligible set only. */
  lemma SameReadiness(s: Router, t: Router, w: World, source: Pid)
    requires s.targets == t.targets && s.eligible == t.eligible
    ensures HasReadyTargets(s, w, source) == HasReadyTargets(t, w, source)
  {}

  lemma EngageKeeps(s: Router, w: World, owner: Owner, source: Pid)
    requires owner in s.holds && Inv(Dropped(s, owner)) && owner.session !in s.closed
    requires s.holds[owner].source == source && HasReadyTargets(s, w, source)
    ensures Inv(EngageRemote(s, w, owner, source).0)
  {
    hide Reconcile, HasReadyTargets, Retargeted;
    var sampled := s.(clutch := s.clutch.(buttons := w.buttons));
    var c := Activated(sampled.clutch, source, true);
    if c.None? {
      HooksOnly(Dropped(sampled, owner), w);
    } else {
      var active := sampled.(clutch := c.value);
      SameReadiness(s, active, w, source);
      RetargetKeeps(active, w, source);
      RetargetedOnly(active, w, source);
      DropLeavesOthers(s, owner);
    }
  }

  lemma DropLeavesOthers(s: Router, owner: Owner)
    ensures forall o | o in s.holds && o != owner :: o in Dropped(s, owner).holds
  {}

  lemma BeginKeeps(s: Router, w: World, owner: Owner)
    requires Inv(s) && owner.session !in s.closed
    ensures Inv(BeginHold(s, w, owner).0)
  {
    hide Inv, Reconcile, HasReadyTargets, EngageRemote, ReconcileFails;
    if owner in s.holds {
      ExtendKeeps(s, owner, SatAdd(w.now, LEASE_MS));
    } else if Available(s, w) {
      var source := w.foreground.value;
      var added := s.(holds := s.holds[owner := Hold(source, SatAdd(w.now, LEASE_MS))]);
      var hooked := Reconcile(added, w);
      HooksOnly(added, w);
      assert Dropped(hooked, owner).holds == s.holds;
      CoreKeeps(s, Dropped(hooked, owner));
      if ReconcileFails(added, w) {
        HooksKeepCore(Dropped(hooked, owner), w);
        CoreKeeps(s, Reconcile(Dropped(hooked, owner), w));
      } else if s.clutch.phase.Active? && s.clutch.source == Some(source) {
        ResumeKeeps(s, owner, Hold(source, SatAdd(w.now, LEASE_MS)));
        CoreKeeps(added, hooked);
      } else {
        SameReadiness(s, hooked, w, source);
        EngageKeeps(hooked, w, owner, source);
      }
    }
  }

  lemma ExtendKeeps(s: Router, owner: Owner, deadline: U64)
    requires Inv(s) && owner in s.holds
    ensures Inv(s.(holds := s.holds[owner := s.holds[owner].(deadline := deadline)]))
  { assert s.holds != map[]; }

  lemma ResumeKeeps(s: Router, owner: Owner, hold: Hold)
    requires Inv(s) && owner.session !in s.closed && s.clutch.phase.Active? && s.clutch.source == Some(hold.source)
    ensures Inv(s.(holds := s.holds[owner := hold]))
  { assert owner in s.holds[owner := hold]; }

  lemma RemoteKeeps(s: Router, w: World, owner: Owner, op: Operation, sequence: U64)
    requires Inv(s)
    ensures Inv(RemoteHold(s, w, owner, op, sequence).0)
  {
    hide Reconcile, BeginHold;
    if owner.session !in s.closed {
      var t := s.(sequences := s.sequences[owner := sequence]);
      assert Inv(t);
      BeginKeeps(t, w, owner);
      DropKeeps(t, w, owner);
    }
  }

  lemma DropKeeps(s: Router, w: World, owner: Owner)
    requires Inv(s)
    ensures Inv(EndHold(s, w, owner)) && Inv(RenewHold(s, w, owner).0)
  {
    hide Inv, Reconcile, Released;
    if owner in s.holds {
      ReleaseKeeps(s, s.holds - {owner}, w.now);
      HooksKeepCore(Released(Dropped(s, owner), w.now), w);
      CoreKeeps(Released(Dropped(s, owner), w.now), EndHold(s, w, owner));
    }
    RenewKeeps(s, w, owner);
  }

  /** In a reachable state a renewal of a known hold always succeeds. */
  lemma RenewKeeps(s: Router, w: World, owner: Owner)
    requires Inv(s)
    ensures Inv(RenewHold(s, w, owner).0)
    ensures RenewHold(s, w, owner).1 == if owner in s.holds then Holding(true) else HoldExpired
  {
    if owner in s.holds { assert s.holds != map[]; }
  }

  lemma ExpireKeeps(s: Router, now: U64)
    requires Inv(s)
    ensures Inv(ExpireHolds(s, now))
  {
    hide Inv, Released;
    ReleaseKeeps(s, map o | o in s.holds && now < s.holds[o].deadline :: s.holds[o], now);
    assert s.(holds := s.holds) == s;
  }

  lemma FinishKeeps(s: Router, now: U64)
    requires Inv(s)
    ensures Inv(FinishDrain(s, now))
  {}

  lemma TickKeeps(s: Router, w: World)
    requires Inv(s)
    ensures Inv(TickOnce(s, w))
  {
    hide Inv, Reconcile, ApplyPending, StillValid, ExpireHolds, FinishDrain, CancelAll;
    ExpireKeeps(s, w.now);
    CancelKeeps(ExpireHolds(s, w.now), w.now);
    var valid := Validate(ExpireHolds(s, w.now), w);
    FinishKeeps(valid, w.now);
    PendingKeeps(FinishDrain(valid, w.now), w);
    ReconcileKeeps(ApplyPending(FinishDrain(valid, w.now), w), w);
  }

  lemma TargetsKeep(s: Router, w: World, pids: set<Pid>, active: Option<Pid>)
    requires Inv(s)
    ensures Inv(UpdateTargets(s, w, pids, active))
  {
    hide Owned, Remembered, NoClosedHold, CancelAll;
    CancelKeeps(s, w.now);
    CancelOnly(s, w.now);
  }

  lemma CancelOnly(s: Router, now: U64)
    ensures CancelAll(s, now) == s.(holds := map[], clutch := CancelBounded(s.clutch, now))
  {}

  lemma EligibleKeeps(s: Router, w: World, pids: set<Pid>)
    requires Inv(s)
    ensures Inv(UpdateEligible(s, w, pids))
  {
    hide Inv, CancelAll;
    CoreKeeps(s, s.(eligible := pids));
    CancelKeeps(s.(eligible := pids), w.now);
  }

  lemma ActiveKeeps(s: Router, w: World, pid: Pid)
    requires Inv(s)
    ensures Inv(SetActivePid(s, w, pid))
  {
    hide Inv, CancelAll;
    CancelKeeps(s, w.now);
    CoreKeeps(s, s.(activePid := Some(pid)));
    CoreKeeps(CancelAll(s, w.now), CancelAll(s, w.now).(activePid := Some(pid)));
  }

  lemma BroadcastKeeps(s: Router, w: World, active: bool)
    requires Inv(s)
    ensures Inv(SetBroadcasting(s, w, active))
  {
    hide Inv, Reconcile, ReconcileFails;
    var b := s.(broadcasting := active);
    HooksKeepCore(b, w);
    CoreKeeps(s, Reconcile(b, w));
    var back := Reconcile(b, w).(broadcasting := false);
    HooksKeepCore(back, w);
    CoreKeeps(Reconcile(b, w), Reconcile(back, w));
  }

  lemma SettingsKeep(s: Router, w: World, binding: Option<Vk>)
    requires Inv(s)
    ensures Inv(SettingsChanged(s, w, binding))
  {
    hide Inv, CancelAll, ApplyPending;
    var t := s.(pending := Some(binding));
    CoreKeeps(s, t);
    CancelKeeps(t, w.now);
    PendingKeeps(CancelAll(t, w.now), w);
  }

  lemma ReleasedKeyKeeps(s: Router, w: World, vk: Vk)
    requires Inv(s)
    ensures Inv(KeyReleased(s, w, vk))
  {
    hide Owned, Routing, Remembered, NoClosedHold, ReleaseIfUnowned;
    if s.clutch.swallowed == Some(vk) {
      KeyUpOwned(s.clutch, s.holds, w.now);
      KeyUpRouting(s.clutch, s.targets, w.now, s.holds != map[]);
    }
  }

  lemma KeyUpOwned(c: Clutch, holds: map<Owner, Hold>, now: U64)
    requires Owned(c, holds)
    ensures Owned(ReleaseIfUnowned(c.(swallowed := None, local := false), now, holds != map[]), holds)
  {}

  lemma KeyUpRouting(c: Clutch, targets: map<Pid, MouseTarget>, now: U64, remote: bool)
    requires Routing(c, targets)
    ensures Routing(ReleaseIfUnowned(c.(swallowed := None, local := false), now, remote), targets)
  {}

  lemma ButtonKeeps(s: Router, button: Button, pressed: bool, now: U64)
    requires Inv(s)
    ensures Inv(s.(clutch := SetButton(s.clutch, button, pressed, now)))
  {}

  lemma StepKeeps(s: Router, step: Step)
    requires Inv(s)
    ensures Inv(StepOnce(s, step))
  {
    hide Inv, KeyPressed, KeyReleased, SetButton, RemoteHold, EndSession, TickOnce, UpdateTargets, UpdateEligible, SetActivePid, SetBroadcasting, SettingsChanged;
    match step.event
    case KeyDown(vk) => KeyPressedKeeps(s, step.world, vk);
    case KeyUp(vk) => ReleasedKeyKeeps(s, step.world, vk);
    case ButtonMoved(button, pressed) => ButtonKeeps(s, button, pressed, step.world.now);
    case Remote(owner, op, sequence) => RemoteKeeps(s, step.world, owner, op, sequence);
    case SessionEnded(session, sequence) => EndSessionKeeps(s, step.world, session, sequence);
    case Ticked => TickKeeps(s, step.world);
    case TargetsChanged(pids, active) => TargetsKeep(s, step.world, pids, active);
    case EligibleChanged(pids) => EligibleKeeps(s, step.world, pids);
    case ActiveChanged(pid) => ActiveKeeps(s, step.world, pid);
    case BroadcastSet(on) => BroadcastKeeps(s, step.world, on);
    case NewSettings(binding) => SettingsKeep(s, step.world, binding);
  }

  lemma StartIsOwned(w: World, binding: Option<Vk>)
    ensures Inv(Start(w, binding))
  {
    hide Reconcile;
    var s := Router(NewClutch(w.buttons), map[], map[], map[], [], map[], {}, {}, None, false,
                    binding, None, binding.Some? && binding.value in w.keysDown, false, false);
    HooksOnly(s, w);
    HooksOnly(Reconcile(s, w).(binding := None), w);
  }

  /** Clutch ownership, closed sessions and mouse routing hold in every reachable state. */
  lemma {:induction false} InvOverRuns(w: World, binding: Option<Vk>, steps: seq<Step>)
    ensures Inv(Run(Start(w, binding), steps))
  {
    if steps == [] {
      StartIsOwned(w, binding);
    } else {
      InvOverRuns(w, binding, steps[..|steps| - 1]);
      StepKeeps(Run(Start(w, binding), steps[..|steps| - 1]), steps[|steps| - 1]);
    }
  }

  // ----- the bounded drain -----

  predicate Idle(c: Clutch) { c.phase.Inactive? || c.phase.Draining? }

  /** Same phase, and a running drain keeps its deadline. */
  predicate Still(c: Clutch, d: Clutch) {
    d.phase == c.phase && (c.phase.Draining? ==> d.drainDeadline == c.drainDeadline)
  }

  /** The step leaves the clutch engaged. */
  predicate Engages(s: Router, step: Step) { StepOnce(s, step).clutch.phase.Active? }

  lemma HooksStill(s: Router, w: World)
    ensures Still(s.clutch, Reconcile(s, w).clutch) && Reconcile(s, w).holds == s.holds
  { HooksOnly(s, w); }

  lemma IdleHasNoHolds(s: Router)
    requires Inv(s) && Idle(s.clutch)
    ensures s.holds == map[] && !s.clutch.local
  {}

  lemma PendingStill(s: Router, w: World)
    requires Inv(s)
    ensures Still(s.clutch, ApplyPending(s, w).clutch)
  { hide ApplyPending, Inv; PendingKeeps(s, w); }

  /** A press leaves the clutch, swallows the key, or activates. */
  lemma PressClutch(s: Router, w: World, vk: Vk)
    ensures var c, held := KeyPressed(s, w, vk).clutch, s.clutch.(swallowed := Some(vk));
            c == s.clutch || c == held
            || (w.foreground.Some?
                && var a := Activated(held, w.foreground.value, HasReadyTargets(s, w, w.foreground.value));
                   a.Some? && c == a.value.(local := true))
  {
    hide HasReadyTargets, ActivateTargets, Activated;
    if w.foreground.Some? {
      var source := w.foreground.value;
      var a := Activated(s.clutch.(swallowed := Some(vk)), source, HasReadyTargets(s, w, source));
      if a.Some? { ActivateKeepsClutch(s.(keyDown := true, clutch := a.value.(local := true)), w, source); }
    }
  }

  /** A press that does not engage an idle clutch leaves its drain as it is. */
  lemma PressStill(s: Router, w: World, vk: Vk)
    requires Idle(s.clutch) && !KeyPressed(s, w, vk).clutch.phase.Active?
    ensures Still(s.clutch, KeyPressed(s, w, vk).clutch)
  {
    hide KeyPressed, HasReadyTargets;
    PressClutch(s, w, vk);
  }

  lemma ActivateKeepsClutch(s: Router, w: World, source: Pid)
    ensures ActivateTargets(s, w, source).clutch == s.clutch
  { hide HasReadyTargets; }

  /** A remote begin engages an idle clutch or leaves it as it is. */
  lemma BeginStill(s: Router, w: World, owner: Owner)
    requires Idle(s.clutch) && s.holds == map[] && !BeginHold(s, w, owner).0.clutch.phase.Active?
    ensures Still(s.clutch, BeginHold(s, w, owner).0.clutch)
  {
    hide Reconcile, ReconcileFails, HasReadyTargets, EngageRemote;
    if Available(s, w) {
      var source := w.foreground.value;
      var added := s.(holds := s.holds[owner := Hold(source, SatAdd(w.now, LEASE_MS))]);
      var hooked := Reconcile(added, w);
      HooksStill(added, w);
      HooksStill(Dropped(hooked, owner), w);
      HooksOnly(added, w);
      SameReadiness(s, hooked, w, source);
      EngageStill(hooked, w, owner, source);
    }
  }

  lemma EngageStill(s: Router, w: World, owner: Owner, source: Pid)
    requires Idle(s.clutch) && HasReadyTargets(s, w, source)
    ensures var c := EngageRemote(s, w, owner, source).0.clutch; c.phase.Active? || Still(s.clutch, c)
  {
    hide Reconcile, HasReadyTargets, Retargeted;
    var sampled := s.(clutch := s.clutch.(buttons := w.buttons));
    HooksStill(Dropped(sampled, owner), w);
    var c := Activated(sampled.clutch, source, true);
    if c.Some? {
      SameReadiness(s, sampled.(clutch := c.value), w, source);
      RetargetedOnly(sampled.(clutch := c.value), w, source);
    }
  }

  lemma RemoteStill(s: Router, w: World, owner: Owner, op: Operation, sequence: U64)
    requires Inv(s) && Idle(s.clutch) && !RemoteHold(s, w, owner, op, sequence).0.clutch.phase.Active?
    ensures Still(s.clutch, RemoteHold(s, w, owner, op, sequence).0.clutch)
  {
    hide BeginHold, Inv;
    IdleHasNoHolds(s);
    if op.Begin? {
      hide RenewHold, EndHold;
      var t := s.(sequences := s.sequences[owner := sequence]);
      if !BeginHold(t, w, owner).0.clutch.phase.Active? { BeginStill(t, w, owner); }
    }
  }

  lemma SessionStill(s: Router, w: World, session: Session, sequence: U64)
    requires Inv(s) && Idle(s.clutch)
    ensures Still(s.clutch, EndSession(s, w, session, sequence).clutch)
  {
    hide Reconcile, Closing;
    IdleHasNoHolds(s);
    ClosingKeeps(s, session, sequence);
    HooksStill(Released(Closing(s, session, sequence), w.now), w);
  }

  lemma SettingsStill(s: Router, w: World, binding: Option<Vk>)
    requires Inv(s) && Idle(s.clutch)
    ensures Still(s.clutch, SettingsChanged(s, w, binding).clutch)
  {
    hide ApplyPending;
    var t := s.(pending := Some(binding));
    CancelKeeps(t, w.now);
    PendingStill(CancelAll(t, w.now), w);
  }

  lemma BroadcastStill(s: Router, w: World, active: bool)
    ensures Still(s.clutch, SetBroadcasting(s, w, active).clutch)
  {
    hide Reconcile, ReconcileFails;
    var b := s.(broadcasting := active);
    HooksStill(b, w);
    HooksStill(Reconcile(b, w).(broadcasting := false), w);
  }

  /** Expiry and validation do not touch an idle clutch's drain. */
  lemma IdleTickStart(s: Router, w: World)
    requires Inv(s) && Idle(s.clutch)
    ensures var v := Validate(ExpireHolds(s, w.now), w); Inv(v) && Still(s.clutch, v.clutch)
  {
    hide StillValid;
    IdleHasNoHolds(s);
    NothingExpires(s, w.now);
    CancelKeeps(s, w.now);
  }

  lemma NothingExpires(s: Router, now: U64)
    requires s.holds == map[]
    ensures ExpireHolds(s, now) == s
  {}

  /** A tick ends the drain exactly when its deadline has come. */
  lemma IdleTick(s: Router, w: World)
    requires Inv(s) && Idle(s.clutch)
    ensures if DrainDue(s.clutch, w.now) then TickOnce(s, w).clutch.phase.Inactive?
            else Still(s.clutch, TickOnce(s, w).clutch)
  {
    hide Inv, Reconcile, ApplyPending, Validate, ExpireHolds;
    IdleTickStart(s, w);
    var v := Validate(ExpireHolds(s, w.now), w);
    FinishKeeps(v, w.now);
    var f := FinishDrain(v, w.now);
    PendingStill(f, w);
    HooksStill(ApplyPending(f, w), w);
  }

  /** Whatever does not engage an idle clutch (keys, buttons, refused begins, cancels,
      settings, session ends, early ticks) does not move a drain deadline, restart the
      clutch or end a drain early. */
  lemma IdleStep(s: Router, step: Step)
    requires Inv(s) && Idle(s.clutch) && !Engages(s, step)
    ensures if step.event.Ticked? && DrainDue(s.clutch, step.world.now) then StepOnce(s, step).clutch.phase.Inactive?
            else Still(s.clutch, StepOnce(s, step).clutch)
  {
    hide Inv, RemoteHold, EndSession, TickOnce, SetBroadcasting, SettingsChanged, KeyPressed, KeyReleased, SetButton,
      UpdateTargets, UpdateEligible, SetActivePid;
    var w := step.world;
    match step.event
    case Ticked => IdleTick(s, w);
    case KeyDown(vk) => PressStill(s, w, vk);
    case Remote(owner, op, sequence) => RemoteStill(s, w, owner, op, sequence);
    case SessionEnded(session, sequence) => SessionStill(s, w, session, sequence);
    case BroadcastSet(on) => BroadcastStill(s, w, on);
    case NewSettings(binding) => SettingsStill(s, w, binding);
    case KeyUp(vk) => KeyUpStill(s, w, vk);
    case ButtonMoved(button, pressed) => ButtonStill(s.clutch, button, pressed, w.now);
    case TargetsChanged(pids, active) => CancelsStill(s, w, pids, active, 0);
    case EligibleChanged(pids) => CancelsStill(s, w, pids, None, 0);
    case ActiveChanged(pid) => CancelsStill(s, w, {}, None, pid);
  }

  lemma KeyUpStill(s: Router, w: World, vk: Vk)
    requires Idle(s.clutch)
    ensures Still(s.clutch, KeyReleased(s, w, vk).clutch)
  {
    hide ReleaseIfUnowned;
    IdleIsNotReleased(s.clutch.(swallowed := None, local := false), w.now, s.holds != map[]);
  }

  lemma IdleIsNotReleased(c: Clutch, now: U64, remote: bool)
    requires Idle(c)
    ensures ReleaseIfUnowned(c, now, remote) == c
  {}

  lemma ButtonStill(c: Clutch, button: Button, pressed: bool, now: U64)
    requires Idle(c)
    ensures Still(c, SetButton(c, button, pressed, now))
  {}

  lemma CancelsStill(s: Router, w: World, pids: set<Pid>, active: Option<Pid>, pid: Pid)
    requires Idle(s.clutch)
    ensures Still(s.clutch, UpdateTargets(s, w, pids, active).clutch)
    ensures Still(s.clutch, UpdateEligible(s, w, pids).clutch)
    ensures Still(s.clutch, SetActivePid(s, w, pid).clutch)
  {
    hide CancelBounded;
    IdleIsNotCancelled(s.clutch, w.now);
    CancelsOrNot(s, w, pids, active, pid);
  }

  lemma IdleIsNotCancelled(c: Clutch, now: U64)
    requires Idle(c)
    ensures CancelBounded(c, now) == c.(local := false)
  {}

  /** The lifecycle updates change the clutch and the holds by a cancel or not at all. */
  lemma CancelsOrNot(s: Router, w: World, pids: set<Pid>, active: Option<Pid>, pid: Pid)
    ensures CancelledOrSame(s, UpdateTargets(s, w, pids, active), w.now)
    ensures CancelledOrSame(s, UpdateEligible(s, w, pids), w.now)
    ensures CancelledOrSame(s, SetActivePid(s, w, pid), w.now)
  {
    hide CancelBounded;
    TargetsCancel(s, w, pids, active);
    EligibleCancels(s, w, pids);
  }

  predicate CancelledOrSame(s: Router, t: Router, now: U64) {
    (t.clutch == s.clutch && t.holds == s.holds) || (t.clutch == CancelBounded(s.clutch, now) && t.holds == map[])
  }

  lemma TargetsCancel(s: Router, w: World, pids: set<Pid>, active: Option<Pid>)
    ensures CancelledOrSame(s, UpdateTargets(s, w, pids, active), w.now)
  {
    hide CancelBounded, CancelAll;
    CancelOnly(s, w.now);
  }

  lemma EligibleCancels(s: Router, w: World, pids: set<Pid>)
    ensures CancelledOrSame(s, UpdateEligible(s, w, pids), w.now)
  { hide CancelBounded; }

  ghost predicate NoFlag(s: Router) { forall pid | pid in s.targets :: !s.targets[pid].flag && !s.targets[pid].selected }

  lemma InactiveHasNoFlag(s: Router)
    requires Inv(s) && s.clutch.phase.Inactive?
    ensures NoFlag(s) && s.holds == map[]
  {}

  /** Some tick of the run came at or after the deadline. */
  ghost predicate DeadlineTicked(steps: seq<Step>, deadline: U64) {
    exists i :: 0 <= i < |steps| && steps[i].event.Ticked? && steps[i].world.now >= deadline
  }

  lemma {:induction false} InvKept(s: Router, steps: seq<Step>)
    requires Inv(s)
    ensures Inv(Run(s, steps))
  {
    if steps != [] {
      hide Inv, StepOnce;
      InvKept(s, steps[..|steps| - 1]);
      StepKeeps(Run(s, steps[..|steps| - 1]), steps[|steps| - 1]);
    }
  }

  lemma TickedLater(steps: seq<Step>, deadline: U64)
    requires steps != []
    ensures var last := steps[|steps| - 1];
            DeadlineTicked(steps, deadline) <==>
              DeadlineTicked(steps[..|steps| - 1], deadline) || (last.event.Ticked? && last.world.now >= deadline)
  {
    assert forall i | 0 <= i < |steps| - 1 :: steps[..|steps| - 1][i] == steps[i];
  }

  /** The clutch after a drain has or has not seen its deadline. */
  ghost predicate Drained(s: Router, deadline: U64, ticked: bool) {
    if ticked then s.clutch.phase.Inactive? && NoFlag(s)
    else s.clutch.phase.Draining? && s.clutch.drainDeadline == deadline
  }

  lemma DrainStep(s: Router, step: Step, deadline: U64, ticked: bool)
    requires Inv(s) && Drained(s, deadline, ticked) && !Engages(s, step)
    ensures Drained(StepOnce(s, step), deadline, ticked || (step.event.Ticked? && step.world.now >= deadline))
  {
    hide Inv, StepOnce, Engages, NoFlag;
    IdleStep(s, step);
    StepKeeps(s, step);
    var t := StepOnce(s, step);
    if t.clutch.phase.Inactive? { InactiveHasNoFlag(t); }
  }

  ghost predicate NeverEngaged(s: Router, steps: seq<Step>) {
    forall i | 0 <= i < |steps| :: !Engages(Run(s, steps[..i]), steps[i])
  }

  lemma NeverEngagedBefore(s: Router, steps: seq<Step>)
    requires steps != [] && NeverEngaged(s, steps)
    ensures NeverEngaged(s, steps[..|steps| - 1]) && !Engages(Run(s, steps[..|steps| - 1]), steps[|steps| - 1])
  {
    hide Run, Engages;
    var before := steps[..|steps| - 1];
    assert forall i | 0 <= i < |before| :: before[..i] == steps[..i] && before[i] == steps[i];
  }

  /** Bounded mouse routing: as long as nobody engages the clutch again, a drain ends
      at the first tick at or after its one deadline, not earlier and not later, and
      then no target follows the mouse any more. */
  lemma {:induction false} DrainIsBounded(s: Router, steps: seq<Step>)
    requires Inv(s) && s.clutch.phase.Draining?
    requires NeverEngaged(s, steps)
    ensures Drained(Run(s, steps), s.clutch.drainDeadline, DeadlineTicked(steps, s.clutch.drainDeadline))
  {
    if steps != [] {
      hide Inv, StepOnce, Engages, NeverEngaged, Drained, DeadlineTicked;
      NeverEngagedBefore(s, steps);
      var before, last := steps[..|steps| - 1], steps[|steps| - 1];
      DrainIsBounded(s, before);
      InvKept(s, before);
      TickedLater(steps, s.clutch.drainDeadline);
      DrainStep(Run(s, before), last, s.clutch.drainDeadline, DeadlineTicked(before, s.clutch.drainDeadline));
    }
  }

  // ----- leases -----

  /** The messages that can extend a lease. */
  predicate Renews(e: Event) { e.Remote? && !e.op.End? }

  /** Every hold runs out within a lease of `renewed`. */
  ghost predicate LeasedUntil(holds: map<Owner, Hold>, renewed: U64) {
    forall o | o in holds :: holds[o].deadline <= SatAdd(renewed, LEASE_MS)
  }

  lemma RemoteLeases(s: Router, w: World, owner: Owner, op: Operation, sequence: U64, renewed: U64)
    requires LeasedUntil(s.holds, renewed) && (op.End? || w.now <= renewed)
    ensures LeasedUntil(RemoteHold(s, w, owner, op, sequence).0.holds, renewed)
  {
    hide Reconcile, Available, HasReadyTargets, ReconcileFails;
    var t := s.(sequences := s.sequences[owner := sequence]);
    if op.Begin? { BeginLeases(t, w, owner, renewed); }
    HooksStill(Released(Dropped(t, owner), w.now), w);
  }

  lemma BeginLeases(s: Router, w: World, owner: Owner, renewed: U64)
    requires LeasedUntil(s.holds, renewed) && w.now <= renewed
    ensures LeasedUntil(BeginHold(s, w, owner).0.holds, renewed)
  {
    hide Reconcile, HasReadyTargets, ReconcileFails, EngageRemote;
    if owner !in s.holds && Available(s, w) {
      var added := s.(holds := s.holds[owner := Hold(w.foreground.value, SatAdd(w.now, LEASE_MS))]);
      HooksStill(added, w);
      HooksStill(Dropped(Reconcile(added, w), owner), w);
      EngageHolds(Reconcile(added, w), w, owner, w.foreground.value);
    }
  }

  lemma EngageHolds(s: Router, w: World, owner: Owner, source: Pid)
    ensures var h := EngageRemote(s, w, owner, source).0.holds; h == s.holds || h == s.holds - {owner}
  {
    hide Reconcile, HasReadyTargets, Retargeted;
    var sampled := s.(clutch := s.clutch.(buttons := w.buttons));
    HooksStill(Dropped(sampled, owner), w);
    var c := Activated(sampled.clutch, source, true);
    if c.Some? {
      var active := sampled.(clutch := c.value);
      RetargetedOnly(active, w, source);
      HooksStill(Dropped(active, owner).(clutch := ReleaseIfUnowned(c.value, w.now, false)), w);
    }
  }

  /** Apart from remote operations, every step keeps or loses holds. */
  lemma OthersOnlyLoseHolds(s: Router, step: Step)
    requires Inv(s) && !step.event.Remote?
    ensures Within(StepOnce(s, step).holds, s.holds)
  {
    hide Inv, EndSession, TickOnce, KeyPressed, KeyReleased, SetBroadcasting, SettingsChanged, SetButton, CancelBounded,
      UpdateTargets, UpdateEligible, SetActivePid;
    var w := step.world;
    match step.event
    case KeyDown(vk) => KeyLoses(s, w, vk);
    case SessionEnded(session, sequence) => SessionLoses(s, w, session, sequence);
    case BroadcastSet(on) => BroadcastLoses(s, w, on);
    case NewSettings(binding) => SettingsLose(s, w, binding);
    case Ticked => TickExpires(s, w);
    case TargetsChanged(pids, active) => CancelsOrNot(s, w, pids, active, 0);
    case EligibleChanged(pids) => CancelsOrNot(s, w, pids, None, 0);
    case ActiveChanged(pid) => CancelsOrNot(s, w, {}, None, pid);
    case KeyUp(vk) => KeyUpLoses(s, w, vk);
    case ButtonMoved(button, pressed) =>
  }

  lemma KeyLoses(s: Router, w: World, vk: Vk)
    ensures KeyPressed(s, w, vk).holds == s.holds
  {
    hide ActivateTargets, HasReadyTargets, Activated;
    if w.foreground.Some? {
      var source := w.foreground.value;
      var a := Activated(s.clutch.(swallowed := Some(vk)), source, HasReadyTargets(s, w, source));
      if a.Some? { TargetsLoseNothing(s.(keyDown := true, clutch := a.value.(local := true)), w, source); }
    }
  }

  lemma TargetsLoseNothing(s: Router, w: World, source: Pid)
    ensures ActivateTargets(s, w, source).holds == s.holds
  { hide HasReadyTargets; }

  lemma KeyUpLoses(s: Router, w: World, vk: Vk)
    ensures KeyReleased(s, w, vk).holds == s.holds
  {
    hide Released;
    if s.clutch.swallowed == Some(vk) {
      ReleaseLoses(s.(keyDown := false, clutch := s.clutch.(swallowed := None, local := false)), w.now);
    }
  }

  lemma ReleaseLoses(s: Router, now: U64)
    ensures Released(s, now).holds == s.holds && Released(s, now).clutch.swallowed == s.clutch.swallowed
  {
    hide ReleaseIfUnowned;
    SameKey(s.clutch, now, s.holds != map[]);
  }

  lemma BroadcastLoses(s: Router, w: World, on: bool)
    ensures SetBroadcasting(s, w, on).holds == s.holds
  {
    hide Reconcile, ReconcileFails;
    var b := s.(broadcasting := on);
    HooksStill(b, w);
    HooksStill(Reconcile(b, w).(broadcasting := false), w);
  }

  lemma SettingsLose(s: Router, w: World, binding: Option<Vk>)
    requires Inv(s)
    ensures SettingsChanged(s, w, binding).holds == map[]
  {
    hide Inv, ApplyPending;
    var t := s.(pending := Some(binding));
    CoreKeeps(s, t);
    CancelKeeps(t, w.now);
    PendingKeeps(CancelAll(t, w.now), w);
  }

  lemma SessionLoses(s: Router, w: World, session: Session, sequence: U64)
    requires Inv(s)
    ensures Within(EndSession(s, w, session, sequence).holds, s.holds)
  {
    hide Reconcile, Closing;
    ClosingKeeps(s, session, sequence);
    HooksStill(Released(Closing(s, session, sequence), w.now), w);
  }

  /** Unexpired holds only, and the key untouched. */
  ghost predicate Expiring(s: Router, t: Router, now: U64) {
    Within(t.holds, s.holds) && (forall o | o in t.holds :: now < t.holds[o].deadline)
    && t.clutch.swallowed == s.clutch.swallowed
  }

  lemma ExpireExpires(s: Router, now: U64)
    ensures Expiring(s, ExpireHolds(s, now), now)
  {
    hide Released;
    ReleaseLoses(s.(holds := map o | o in s.holds && now < s.holds[o].deadline :: s.holds[o]), now);
  }

  lemma SameKey(c: Clutch, now: U64, remote: bool)
    ensures ReleaseIfUnowned(c, now, remote).swallowed == c.swallowed
  {}

  lemma ValidateLoses(s: Router, w: World)
    ensures Validate(s, w).holds == s.holds || Validate(s, w).holds == map[]
    ensures Validate(s, w).clutch.swallowed == s.clutch.swallowed
  { hide StillValid; }

  lemma FinishLoses(s: Router, now: U64)
    ensures FinishDrain(s, now).holds == s.holds && FinishDrain(s, now).clutch.swallowed == s.clutch.swallowed
  {}

  /** After a tick only unexpired holds remain. */
  lemma TickExpires(s: Router, w: World)
    requires Inv(s)
    ensures Expiring(s, TickOnce(s, w), w.now)
    ensures Within(TickOnce(s, w).holds, s.holds)
  {
    hide Inv, Reconcile, ApplyPending, Validate, FinishDrain, ExpireHolds;
    var expired := ExpireHolds(s, w.now);
    ExpireKeeps(s, w.now);
    ExpireExpires(s, w.now);
    ValidateKeeps(expired, w);
    ValidateLoses(expired, w);
    var v := Validate(expired, w);
    FinishKeeps(v, w.now);
    FinishLoses(v, w.now);
    PendingKeeps(FinishDrain(v, w.now), w);
    HooksKeepCore(ApplyPending(FinishDrain(v, w.now), w), w);
  }

  lemma ValidateKeeps(s: Router, w: World)
    requires Inv(s)
    ensures Inv(Validate(s, w))
  {
    hide Inv, StillValid, CancelAll;
    CancelKeeps(s, w.now);
  }

  lemma {:induction false} LeasesOverRuns(s: Router, steps: seq<Step>, renewed: U64)
    requires Inv(s) && LeasedUntil(s.holds, renewed)
    requires forall i | 0 <= i < |steps| && Renews(steps[i].event) :: steps[i].world.now <= renewed
    ensures LeasedUntil(Run(s, steps).holds, renewed)
  {
    if steps != [] {
      hide Inv, RemoteHold;
      var before, last := steps[..|steps| - 1], steps[|steps| - 1];
      LeasesOverRuns(s, before, renewed);
      InvKept(s, before);
      var t := Run(s, before);
      if last.event.Remote? {
        RemoteLeases(t, last.world, last.event.owner, last.event.op, last.event.sequence, renewed);
      } else {
        hide StepOnce;
        OthersOnlyLoseHolds(t, last);
      }
    }
  }

  /** With the clutch key up, a tick at least a lease after the last renewal is never
      Active: lost remote controls cannot keep the mouse routed. */
  lemma UnrenewedClutchReleases(w: World, binding: Option<Vk>, steps: seq<Step>, tick: World, renewed: U64)
    requires forall i | 0 <= i < |steps| && Renews(steps[i].event) :: steps[i].world.now <= renewed
    requires tick.now >= SatAdd(renewed, LEASE_MS)
    requires Run(Start(w, binding), steps).clutch.swallowed == None
    ensures !TickOnce(Run(Start(w, binding), steps), tick).clutch.phase.Active?
  {
    hide Start, TickOnce, Inv;
    InvOverRuns(w, binding, steps);
    StartIsOwned(w, binding);
    StartHoldsNothing(w, binding);
    LeasesOverRuns(Start(w, binding), steps, renewed);
    var s := Run(Start(w, binding), steps);
    TickExpires(s, tick);
    TickKeeps(s, tick);
    assert TickOnce(s, tick).holds == map[];
    UnownedIsNotActive(TickOnce(s, tick));
  }

  lemma UnownedIsNotActive(s: Router)
    requires Inv(s) && s.holds == map[] && s.clutch.swallowed == None
    ensures !s.clutch.phase.Active?
  {}

  lemma StartHoldsNothing(w: World, binding: Option<Vk>)
    ensures Start(w, binding).holds == map[]
  {}

  /** Repeated, reordered, never numbered, or of a session remembered as closed. */
  predicate StaleMessage(s: Router, owner: Owner, sequence: U64) {
    owner.session in s.closed || sequence <= (if owner in s.sequences then s.sequences[owner] else 0)
  }

  lemma BeginSequences(s: Router, w: World, owner: Owner)
    ensures BeginHold(s, w, owner).0.sequences == s.sequences
  {
    hide Reconcile, ReconcileFails, HasReadyTargets, EngageRemote;
    if Available(s, w) {
      var added := s.(holds := s.holds[owner := Hold(w.foreground.value, SatAdd(w.now, LEASE_MS))]);
      var hooked := Reconcile(added, w);
      HooksOnly(added, w);
      HooksOnly(Dropped(hooked, owner), w);
      EngageSequences(hooked, w, owner, w.foreground.value);
    }
  }

  lemma EngageSequences(s: Router, w: World, owner: Owner, source: Pid)
    ensures EngageRemote(s, w, owner, source).0.sequences == s.sequences
  {
    hide Reconcile, HasReadyTargets, Retargeted;
    var sampled := s.(clutch := s.clutch.(buttons := w.buttons));
    HooksOnly(Dropped(sampled, owner), w);
    var c := Activated(sampled.clutch, source, true);
    if c.Some? {
      var active := sampled.(clutch := c.value);
      RetargetedOnly(active, w, source);
      HooksOnly(Dropped(active, owner).(clutch := ReleaseIfUnowned(c.value, w.now, false)), w);
    }
  }

  lemma RenewAndEndSequences(s: Router, w: World, owner: Owner)
    ensures RenewHold(s, w, owner).0.sequences == s.sequences && EndHold(s, w, owner).sequences == s.sequences
  {
    hide Reconcile;
    HooksOnly(Released(Dropped(s, owner), w.now), w);
  }

  /** A message that is not stale is noted, whatever else comes of it. */
  lemma FreshMessageNoted(s: Router, w: World, owner: Owner, op: Operation, sequence: U64)
    requires !StaleMessage(s, owner, sequence)
    ensures RemoteHold(s, w, owner, op, sequence).0.sequences == s.sequences[owner := sequence]
  {
    hide BeginHold, RenewHold, EndHold;
    var t := s.(sequences := s.sequences[owner := sequence]);
    BeginSequences(t, w, owner);
    RenewAndEndSequences(t, w, owner);
  }

  /** A message changes nothing exactly when it is stale. */
  lemma StaleMessageIgnored(s: Router, w: World, owner: Owner, op: Operation, sequence: U64)
    ensures RemoteHold(s, w, owner, op, sequence).0 == s <==> StaleMessage(s, owner, sequence)
  {
    hide BeginHold, RenewHold, EndHold;
    if !StaleMessage(s, owner, sequence) {
      hide RemoteHold;
      FreshMessageNoted(s, w, owner, op, sequence);
      assert s.sequences[owner := sequence][owner] == sequence;
    }
  }
}
