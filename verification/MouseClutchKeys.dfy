/** The clutch key as the focused game sees it: every stroke is hidden from the first press
    to the release, or not at all. */
module MouseClutchKeys {
  import opened Foundations
  import opened MouseClutch
  import MouseClutchSafety

  /** The keyboard hook keeps the event from the focused window. */
  predicate Hides(s: Router, w: World, event: Event) {
    match event
    case KeyDown(vk) =>
      s.clutch.swallowed == Some(vk)
      || (s.pending.None? && s.binding == Some(vk) && !s.keyDown && w.foreground.Some? && w.foreground.value in s.eqPids)
    case KeyUp(vk) => s.clutch.swallowed == Some(vk)
    case _ => false
  }

  /** A swallowed key is the bound key, held down, and whatever is bound is hooked. */
  predicate Paired(s: Router) {
    (s.clutch.swallowed.Some? ==> s.binding == s.clutch.swallowed && s.keyDown) && (s.binding.Some? ==> s.keyboardHook)
  }

  /** The key went down in the open: it is not swallowed and will not be before its release. */
  predicate Open(s: Router, vk: Vk) {
    s.clutch.swallowed != Some(vk) && (s.binding == Some(vk) ==> s.keyDown || s.pending.Some?)
  }

  // ----- what each operation does to the key -----

  predicate SameKeys(s: Router, t: Router) {
    t.clutch.swallowed == s.clutch.swallowed && t.binding == s.binding && t.keyDown == s.keyDown && t.pending == s.pending
    && (s.binding.Some? && s.keyboardHook ==> t.keyboardHook)
  }

  /** The keyboard hook stays as long as there is a binding, and a reconciliation that does
      not fail installs it. */
  lemma ReconciledHook(s: Router, w: World)
    ensures s.binding.Some? && (s.keyboardHook || !ReconcileFails(s, w)) ==> Reconcile(s, w).keyboardHook
  { hide MouseNeeded; }

  /** Phases, buttons, owners and deadlines change without the key. */
  lemma ClutchSameKey(c: Clutch, source: Pid, now: U64, remote: bool)
    ensures ReleaseIfUnowned(c, now, remote).swallowed == c.swallowed && CancelBounded(c, now).swallowed == c.swallowed
    ensures Activated(c, source, true).Some? ==> Activated(c, source, true).value.swallowed == c.swallowed
    ensures ForceInactive(c).swallowed == c.swallowed
  {}

  lemma HooksSameKeys(s: Router, w: World)
    ensures SameKeys(s, Reconcile(s, w))
  {
    hide Reconcile;
    MouseClutchSafety.HooksOnly(s, w);
    ReconciledHook(s, w);
  }

  lemma ReleasedSameKeys(s: Router, now: U64)
    ensures SameKeys(s, Released(s, now)) && SameKeys(s, CancelAll(s, now))
  {
    hide ReleaseIfUnowned, CancelBounded;
    ClutchSameKey(s.clutch, 0, now, s.holds != map[]);
  }

  lemma TargetsSameKeys(s: Router, w: World, source: Pid)
    ensures SameKeys(s, Retargeted(s, w, source)) && SameKeys(s, DeactivateTargets(s))
  {}

  lemma EngageSameKeys(s: Router, w: World, owner: Owner, source: Pid)
    ensures SameKeys(s, EngageRemote(s, w, owner, source).0)
  {
    hide Reconcile, HasReadyTargets, Activated, ReleaseIfUnowned, Retargeted;
    var sampled := s.(clutch := s.clutch.(buttons := w.buttons));
    ClutchSameKey(sampled.clutch, source, w.now, false);
    match Activated(sampled.clutch, source, true)
    case None => HooksSameKeys(Dropped(sampled, owner), w);
    case Some(c) => EngagedSameKeys(sampled.(clutch := c), w, owner, source);
  }

  lemma EngagedSameKeys(s: Router, w: World, owner: Owner, source: Pid)
    ensures SameKeys(s, Retargeted(s, w, source))
    ensures SameKeys(s, Reconcile(Dropped(s, owner).(clutch := ReleaseIfUnowned(s.clutch, w.now, false)), w))
  {
    hide Reconcile, ReleaseIfUnowned, Retargeted;
    TargetsSameKeys(s, w, source);
    ClutchSameKey(s.clutch, source, w.now, false);
    HooksSameKeys(Dropped(s, owner).(clutch := ReleaseIfUnowned(s.clutch, w.now, false)), w);
  }

  lemma RemoteSameKeys(s: Router, w: World, owner: Owner, op: Operation, sequence: U64)
    ensures SameKeys(s, RemoteHold(s, w, owner, op, sequence).0)
  {
    hide BeginHold, RenewHold, EndHold;
    var t := s.(sequences := s.sequences[owner := sequence]);
    BeginSameKeys(t, w, owner);
    RenewSameKeys(t, w, owner);
    EndSameKeys(t, w, owner);
  }

  lemma BeginSameKeys(s: Router, w: World, owner: Owner)
    ensures SameKeys(s, BeginHold(s, w, owner).0)
  {
    hide Reconcile, ReconcileFails, EngageRemote, HasReadyTargets;
    if Available(s, w) {
      var source := w.foreground.value;
      var added := s.(holds := s.holds[owner := Hold(source, SatAdd(w.now, LEASE_MS))]);
      HooksSameKeys(added, w);
      HooksSameKeys(Dropped(Reconcile(added, w), owner), w);
      EngageSameKeys(Reconcile(added, w), w, owner, source);
    }
  }

  lemma HoldsSameKeys(s: Router, holds: map<Owner, Hold>)
    ensures SameKeys(s, s.(holds := holds))
  {}

  lemma RenewSameKeys(s: Router, w: World, owner: Owner)
    ensures SameKeys(s, RenewHold(s, w, owner).0)
  {
    hide SameKeys;
    HoldsSameKeys(s, s.holds);
    if owner in s.holds {
      HoldsSameKeys(s, s.holds - {owner});
      HoldsSameKeys(s, s.holds[owner := s.holds[owner].(deadline := SatAdd(w.now, LEASE_MS))]);
    }
  }

  lemma EndSameKeys(s: Router, w: World, owner: Owner)
    ensures SameKeys(s, EndHold(s, w, owner))
  {
    hide Reconcile, Released;
    var d := Dropped(s, owner);
    ReleasedSameKeys(d, w.now);
    HooksSameKeys(Released(d, w.now), w);
  }

  lemma SessionSameKeys(s: Router, w: World, session: Session, sequence: U64)
    ensures SameKeys(s, EndSession(s, w, session, sequence))
  {
    hide Reconcile, Forget, NotOf, Released;
    ReleasedSameKeys(Closing(s, session, sequence), w.now);
    HooksSameKeys(Released(Closing(s, session, sequence), w.now), w);
  }

  lemma BroadcastSameKeys(s: Router, w: World, on: bool)
    ensures SameKeys(s, SetBroadcasting(s, w, on))
  {
    hide Reconcile, ReconcileFails;
    var b := s.(broadcasting := on);
    HooksSameKeys(b, w);
    HooksSameKeys(Reconcile(b, w).(broadcasting := false), w);
  }

  /** A new binding is taken with the key's real position and its hook, or is lost. */
  predicate Rebinds(s: Router, w: World, t: Router) {
    s.clutch.swallowed.None? && t.clutch.swallowed.None?
    && (t.binding.None? || (t.keyDown == (t.binding.value in w.keysDown) && t.keyboardHook))
  }

  lemma PendingRebinds(s: Router, w: World)
    ensures SameKeys(s, ApplyPending(s, w)) || Rebinds(s, w, ApplyPending(s, w))
  {
    hide Reconcile, ReconcileFails;
    if s.clutch.phase.Inactive? && s.clutch.swallowed.None? && s.pending.Some? {
      var r := Reconcile(Rebound(s, w), w);
      HooksSameKeys(Rebound(s, w), w);
      ReconciledHook(Rebound(s, w), w);
      HooksSameKeys(Unbound(r), w);
    }
  }

  lemma TickRebinds(s: Router, w: World)
    ensures SameKeys(s, TickOnce(s, w)) || Rebinds(s, w, TickOnce(s, w))
  {
    hide Reconcile, ApplyPending, ExpireHolds, Validate, FinishDrain;
    var e := ExpireHolds(s, w.now);
    var v := Validate(e, w);
    var f := FinishDrain(v, w.now);
    TimeSameKeys(s, e, v, w);
    PendingRebinds(f, w);
    HooksSameKeys(ApplyPending(f, w), w);
  }

  lemma TimeSameKeys(s: Router, e: Router, v: Router, w: World)
    ensures SameKeys(s, ExpireHolds(s, w.now)) && SameKeys(e, Validate(e, w)) && SameKeys(v, FinishDrain(v, w.now))
  {
    hide ExpireHolds, StillValid, CancelAll, DrainDue, DeactivateTargets;
    ExpirySameKeys(s, w.now);
    ReleasedSameKeys(e, w.now);
    TargetsSameKeys(v.(clutch := ForceInactive(v.clutch)), w, 0);
  }

  lemma ExpirySameKeys(s: Router, now: U64)
    ensures SameKeys(s, ExpireHolds(s, now))
  {
    hide Released;
    ReleasedSameKeys(s.(holds := map o | o in s.holds && now < s.holds[o].deadline :: s.holds[o]), now);
  }

  lemma LifecycleSameKeys(s: Router, w: World, pids: set<Pid>, active: Option<Pid>, pid: Pid)
    ensures SameKeys(s, UpdateTargets(s, w, pids, active)) && SameKeys(s, UpdateEligible(s, w, pids)) && SameKeys(s, SetActivePid(s, w, pid))
  {
    hide CancelAll, Remapped;
    ReleasedSameKeys(s, w.now);
    ReleasedSameKeys(s.(eligible := pids), w.now);
  }

  lemma SettingsRebind(s: Router, w: World, binding: Option<Vk>)
    ensures var t := SettingsChanged(s, w, binding);
            Rebinds(s, w, t) || (t.pending.Some? && SameKeys(s, t.(pending := s.pending)))
  {
    hide CancelAll, ApplyPending;
    var p := s.(pending := Some(binding));
    ReleasedSameKeys(p, w.now);
    PendingRebinds(CancelAll(p, w.now), w);
  }

  /** No step but the key's own press and release, or a new binding, moves the key. */
  lemma OtherSteps(s: Router, step: Step)
    requires !step.event.KeyDown? && !step.event.KeyUp?
    ensures SameKeys(s, StepOnce(s, step)) || Rebinds(s, step.world, StepOnce(s, step))
            || (step.event.NewSettings? && StepOnce(s, step).pending.Some?
                && SameKeys(s, StepOnce(s, step).(pending := s.pending)))
  {
    hide RemoteHold, EndSession, SetBroadcasting, TickOnce, SettingsChanged, UpdateTargets, UpdateEligible, SetActivePid, SetButton;
    var w := step.world;
    match step.event
    case ButtonMoved(button, pressed) => ButtonSameKey(s.clutch, button, pressed, w.now);
    case Remote(owner, op, sequence) => RemoteSameKeys(s, w, owner, op, sequence);
    case SessionEnded(session, sequence) => SessionSameKeys(s, w, session, sequence);
    case TargetsChanged(pids, active) => LifecycleSameKeys(s, w, pids, active, 0);
    case EligibleChanged(pids) => LifecycleSameKeys(s, w, pids, None, 0);
    case ActiveChanged(pid) => LifecycleSameKeys(s, w, {}, None, pid);
    case BroadcastSet(on) => BroadcastSameKeys(s, w, on);
    case NewSettings(binding) => SettingsRebind(s, w, binding);
    case Ticked => TickRebinds(s, w);
  }

  lemma ButtonSameKey(c: Clutch, button: Button, pressed: bool, now: U64)
    ensures SetButton(c, button, pressed, now).swallowed == c.swallowed
  {}

  predicate Takes(s: Router, w: World, vk: Vk) {
    s.clutch.swallowed != Some(vk) && s.pending.None? && s.binding == Some(vk) && !s.keyDown
    && w.foreground.Some? && w.foreground.value in s.eqPids
  }

  /** A press that is taken swallows the key, activating or not. */
  lemma TakenPress(s: Router, w: World, vk: Vk)
    requires Takes(s, w, vk)
    ensures SameKeys(s.(keyDown := true, clutch := s.clutch.(swallowed := Some(vk))), KeyPressed(s, w, vk))
  {
    hide HasReadyTargets, Activated, ActivateTargets, SameKeys;
    var source, c := w.foreground.value, s.clutch.(swallowed := Some(vk));
    var ready := HasReadyTargets(s, w, source);
    EngagedPress(s.(keyDown := true), w, source, c, ready);
  }

  lemma EngagedPress(s: Router, w: World, source: Pid, c: Clutch, ready: bool)
    ensures SameKeys(s.(clutch := c), s.(clutch := c))
    ensures var a := Activated(c, source, ready);
            a.Some? ==> SameKeys(s.(clutch := c), ActivateTargets(s.(clutch := a.value.(local := true)), w, source))
  {
    hide HasReadyTargets, Activated, Retargeted;
    var a := Activated(c, source, ready);
    if a.Some? {
      ActivatedSameKey(c, source, ready);
      TargetsSameKeys(s.(clutch := a.value.(local := true)), w, source);
    }
  }

  lemma ActivatedSameKey(c: Clutch, source: Pid, ready: bool)
    ensures Activated(c, source, ready).Some? ==> Activated(c, source, ready).value.swallowed == c.swallowed
  {}

  /** Any other press is a repeat, somebody else's, or goes down in the open. */
  lemma OtherPress(s: Router, w: World, vk: Vk)
    requires !Takes(s, w, vk)
    ensures var t := KeyPressed(s, w, vk);
            t.clutch == s.clutch && t.binding == s.binding && t.pending == s.pending && t.keyboardHook == s.keyboardHook
            && (t.keyDown == s.keyDown || (t.keyDown && s.binding == Some(vk)))
            && (s.clutch.swallowed == Some(vk) || Open(t, vk))
  { hide HasReadyTargets, Activated, ActivateTargets; }

  lemma PressKeeps(s: Router, w: World, vk: Vk)
    ensures var t := KeyPressed(s, w, vk);
            t.binding == s.binding && t.pending == s.pending && (s.binding.Some? && s.keyboardHook ==> t.keyboardHook)
            && (t.keyDown == s.keyDown || (s.binding == Some(vk) && t.keyDown))
            && (t.clutch.swallowed == if Hides(s, w, KeyDown(vk)) then Some(vk) else s.clutch.swallowed)
            && (Takes(s, w, vk) ==> t.keyDown) && (!Hides(s, w, KeyDown(vk)) ==> Open(t, vk))
  {
    hide KeyPressed;
    if Takes(s, w, vk) { TakenPress(s, w, vk); } else { OtherPress(s, w, vk); }
  }

  // ----- every step, every run -----

  lemma StepKeepsPaired(s: Router, step: Step)
    requires Paired(s)
    ensures Paired(StepOnce(s, step))
  {
    hide KeyPressed, RemoteHold, EndSession, SetBroadcasting, TickOnce, SettingsChanged, UpdateTargets, UpdateEligible;
    match step.event
    case KeyDown(vk) => PressKeeps(s, step.world, vk);
    case KeyUp(vk) => ReleaseKeepsPaired(s, step.world, vk);
    case _ => OtherSteps(s, step);
  }

  lemma ReleaseKeepsPaired(s: Router, w: World, vk: Vk)
    requires Paired(s)
    ensures Paired(KeyReleased(s, w, vk))
  {}

  /** In every reachable state the swallowed key is the bound key, still down, and the
      keyboard hook is installed whenever a key is bound or swallowed. */
  lemma {:induction false} PairedOverRuns(w: World, binding: Option<Vk>, steps: seq<Step>)
    ensures Paired(Run(Start(w, binding), steps))
  {
    if steps == [] {
      StartIsPaired(w, binding);
    } else {
      hide StepOnce;
      PairedOverRuns(w, binding, steps[..|steps| - 1]);
      StepKeepsPaired(Run(Start(w, binding), steps[..|steps| - 1]), steps[|steps| - 1]);
    }
  }

  lemma StartIsPaired(w: World, binding: Option<Vk>)
    ensures Paired(Start(w, binding))
  {
    hide Reconcile, ReconcileFails;
    var s := Router(NewClutch(w.buttons), map[], map[], map[], [], map[], {}, {}, None, false,
                    binding, None, binding.Some? && binding.value in w.keysDown, false, false);
    HooksSameKeys(s, w);
    ReconciledHook(s, w);
    HooksSameKeys(Reconcile(s, w).(binding := None), w);
  }

  /** Until its own release a swallowed key stays swallowed, whatever else happens. */
  lemma SwallowedStays(s: Router, step: Step, vk: Vk)
    requires Paired(s) && s.clutch.swallowed == Some(vk) && step.event != KeyUp(vk)
    ensures StepOnce(s, step).clutch.swallowed == Some(vk)
  {
    hide KeyPressed, RemoteHold, EndSession, SetBroadcasting, TickOnce, SettingsChanged, UpdateTargets, UpdateEligible;
    match step.event
    case KeyDown(k) => PressKeeps(s, step.world, k);
    case KeyUp(k) =>
    case _ => OtherSteps(s, step);
  }

  /** Until its own release a key that went down in the open stays in the open, as long as
      the sampled keyboard has it down. */
  lemma OpenStays(s: Router, step: Step, vk: Vk)
    requires Paired(s) && Open(s, vk) && step.event != KeyUp(vk) && vk in step.world.keysDown
    ensures Open(StepOnce(s, step), vk)
  {
    hide KeyPressed, RemoteHold, EndSession, SetBroadcasting, TickOnce, SettingsChanged, UpdateTargets, UpdateEligible;
    match step.event
    case KeyDown(k) => PressKeeps(s, step.world, k);
    case KeyUp(k) => ReleaseKeepsOpen(s, step.world, k, vk);
    case _ => OtherSteps(s, step);
  }

  lemma ReleaseKeepsOpen(s: Router, w: World, k: Vk, vk: Vk)
    requires Paired(s) && Open(s, vk) && k != vk
    ensures Open(KeyReleased(s, w, k), vk)
  {}

  predicate Unreleased(steps: seq<Step>, vk: Vk) { forall i | 0 <= i < |steps| :: steps[i].event != KeyUp(vk) }

  /** Every sample of the keyboard has the key down. */
  predicate SampledDown(steps: seq<Step>, vk: Vk) { forall i | 0 <= i < |steps| :: vk in steps[i].world.keysDown }

  lemma {:induction false} DuringStroke(s: Router, steps: seq<Step>, vk: Vk)
    requires Paired(s) && Unreleased(steps, vk)
    ensures Paired(Run(s, steps))
    ensures s.clutch.swallowed == Some(vk) ==> Run(s, steps).clutch.swallowed == Some(vk)
    ensures Open(s, vk) && SampledDown(steps, vk) ==> Open(Run(s, steps), vk)
  {
    if steps != [] {
      hide StepOnce, Paired, Open;
      var before, last := steps[..|steps| - 1], steps[|steps| - 1];
      DuringStroke(s, before, vk);
      StepKeepsPaired(Run(s, before), last);
      if s.clutch.swallowed == Some(vk) { SwallowedStays(Run(s, before), last, vk); }
      if Open(s, vk) && SampledDown(steps, vk) { OpenStays(Run(s, before), last, vk); }
    }
  }

  /** In every run, whatever comes between (focus, settings, sessions, targets, ticks, other
      keys): a repeat or the release of a key is hidden if its press was, and, with truthful
      samples of the keyboard, exactly then. */
  lemma StrokesAreWhole(w: World, binding: Option<Vk>, before: seq<Step>, press: Step, during: seq<Step>, next: Step, vk: Vk)
    requires press.event == KeyDown(vk) && Unreleased(during, vk) && (next.event == KeyDown(vk) || next.event == KeyUp(vk))
    ensures var s := Run(Start(w, binding), before); var t := Run(StepOnce(s, press), during);
            (Hides(s, press.world, press.event) ==> Hides(t, next.world, next.event))
            && (SampledDown(during, vk) && Hides(t, next.world, next.event) ==> Hides(s, press.world, press.event))
  {
    hide KeyPressed;
    var s := Run(Start(w, binding), before);
    PairedOverRuns(w, binding, before);
    PressKeeps(s, press.world, vk);
    StepKeepsPaired(s, press);
    DuringStroke(StepOnce(s, press), during, vk);
  }
}
