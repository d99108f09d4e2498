/** The objects behind the Mouse Clutch; every method is proved against its function
    in MouseClutch. crates/stonemite/src/broadcast.rs, `MouseClutch` and `BroadcastState`. */
module MouseClutchState {
  import opened Foundations
  import opened MouseClutch
  import opened MouseClutchKeys

  class ClutchObject {
    var phase: ClutchPhase
    var buttons: set<Button>
    var swallowed: Option<Vk>
    var local: bool
    var source: Option<Pid>
    var drainDeadline: U64

    function View(): Clutch
      reads this
    { Clutch(phase, buttons, swallowed, local, source, drainDeadline) }

    constructor (buttons: set<Button>)
      ensures View() == NewClutch(buttons)
    {
      phase, this.buttons, swallowed, local, source, drainDeadline := Inactive, buttons, None, false, None, 0;
    }

    method Engage(pid: Pid, hasTargets: bool) returns (ok: bool)
      modifies this
      ensures match Activated(old(View()), pid, hasTargets)
              case None => !ok && View() == old(View())
              case Some(c) => ok && View() == c
    {
      if phase.Active? { return source == Some(pid); }
      if buttons != {} || !hasTargets { return false; }
      phase, source, drainDeadline := Active, Some(pid), 0;
      ok := true;
    }

    method OnKeyDown(vk: Vk, pid: Pid, hasTargets: bool) returns (effect: KeyEffect)
      modifies this
      ensures old(swallowed) == Some(vk) ==> effect == Swallow && View() == old(View())
      ensures old(swallowed) != Some(vk) ==>
                var c := old(View()).(swallowed := Some(vk));
                match Activated(c, pid, hasTargets)
                case None => effect == Swallow && View() == c
                case Some(a) => effect == Activate && View() == a.(local := true)
    {
      if swallowed == Some(vk) { return Swallow; }
      swallowed := Some(vk);
      var ok := Engage(pid, hasTargets);
      if !ok { return Swallow; }
      local := true;
      effect := Activate;
    }

    method OnKeyUp(vk: Vk, now: U64, remote: bool) returns (effect: KeyEffect)
      modifies this
      ensures old(swallowed) != Some(vk) ==> effect == Pass && View() == old(View())
      ensures old(swallowed) == Some(vk) ==>
                effect == Swallow && View() == ReleaseIfUnowned(old(View()).(swallowed := None, local := false), now, remote)
    {
      if swallowed != Some(vk) { return Pass; }
      swallowed, local := None, false;
      Release(now, remote);
      effect := Swallow;
    }

    method Release(now: U64, remote: bool)
      modifies this
      ensures View() == ReleaseIfUnowned(old(View()), now, remote)
    {
      if local || remote || phase != Active { return; }
      if buttons == {} { Drain(now); } else { phase := Releasing; }
    }

    method MoveButton(button: Button, pressed: bool, now: U64)
      modifies this
      ensures View() == SetButton(old(View()), button, pressed, now)
    {
      buttons := if pressed then buttons + {button} else buttons - {button};
      if phase.Releasing? && buttons == {} { Drain(now); }
    }

    method Cancel(now: U64)
      modifies this
      ensures View() == CancelBounded(old(View()), now)
    {
      local := false;
      if phase.Active? || phase.Releasing? { Drain(now); }
    }

    method Drain(now: U64)
      modifies this
      ensures View() == BeginDrain(old(View()), now)
    { phase, drainDeadline := Draining, SatAdd(now, MOUSE_DRAIN_MS); }

    method FinishIfDue(now: U64) returns (done: bool)
      modifies this
      ensures done == DrainDue(old(View()), now)
      ensures View() == if done then ForceInactive(old(View())) else old(View())
    {
      done := phase.Draining? && now >= drainDeadline;
      if done { Force(); }
    }

    method Force()
      modifies this
      ensures View() == ForceInactive(old(View()))
    { phase, local, source, drainDeadline := Inactive, false, None, 0; }
  }

  predicate RemovalFails(s: Router, w: World) {
    (!MouseNeeded(s) && s.mouseHook && !w.mouseRemoves) || (!KeyboardNeeded(s) && s.keyboardHook && !w.keyboardRemoves)
  }

  lemma MouseNeedIgnoresKeyboardHook(s: Router)
    ensures MouseNeeded(s.(keyboardHook := true)) == MouseNeeded(s)
  {}

  lemma NeedsIgnoreHooks(s: Router, w: World)
    ensures ReconcileFails(s, w) <==> InstallFails(s, w) || RemovalFails(Install(s, w), w)
  {}

  class BroadcastState {
    const clutch: ClutchObject
    var holds: map<Owner, Hold>
    var sequences: map<Owner, U64>
    var closed: map<Session, U64>
    var closedOrder: seq<Session>
    var targets: map<Pid, MouseTarget>
    var eqPids: set<Pid>
    var eligible: set<Pid>
    var activePid: Option<Pid>
    var broadcasting: bool
    var binding: Option<Vk>
    var pending: Option<Option<Vk>>
    var keyDown: bool
    var keyboardHook: bool
    var mouseHook: bool

    function View(): Router
      reads this, clutch
    {
      Router(clutch.View(), holds, sequences, closed, closedOrder, targets, eqPids, eligible, activePid, broadcasting,
             binding, pending, keyDown, keyboardHook, mouseHook)
    }

    /** `init`. */
    constructor (w: World, binding: Option<Vk>)
      ensures View() == Start(w, binding) && fresh(clutch)
    {
      clutch := new ClutchObject(w.buttons);
      holds, sequences, closed, closedOrder, targets := map[], map[], map[], [], map[];
      eqPids, eligible, activePid, broadcasting := {}, {}, None, false;
      this.binding, pending, keyDown := binding, None, binding.Some? && binding.value in w.keysDown;
      keyboardHook, mouseHook := false, false;
      new;
      var ok := ReconcileHooks(w);
      if !ok {
        this.binding := None;
        var _ := ReconcileHooks(w);
      }
    }

    method ReconcileHooks(w: World) returns (ok: bool)
      modifies this`keyboardHook, this`mouseHook, clutch`buttons
      ensures View() == Reconcile(old(View()), w) && ok == !ReconcileFails(old(View()), w)
    {
      hide Install, Uninstall;
      NeedsIgnoreHooks(View(), w);
      ok := InstallHooks(w);
      if ok { ok := RemoveHooks(w); }
    }

    method InstallHooks(w: World) returns (ok: bool)
      modifies this`keyboardHook, this`mouseHook, clutch`buttons
      ensures View() == Install(old(View()), w) && ok == !InstallFails(old(View()), w)
    {
      hide KeyboardNeeded, MouseNeeded, InstallMouse;
      MouseNeedIgnoresKeyboardHook(View());
      if KeyboardNeeded(View()) && !keyboardHook {
        if !w.keyboardInstalls { return false; }
        keyboardHook := true;
      }
      ok := InstallMouseHook(w);
    }

    method InstallMouseHook(w: World) returns (ok: bool)
      modifies this`mouseHook, clutch`buttons
      ensures View() == InstallMouse(old(View()), w)
      ensures ok == !(MouseNeeded(old(View())) && !old(mouseHook) && !w.mouseInstalls)
    {
      hide MouseNeeded;
      if MouseNeeded(View()) && !mouseHook {
        if !w.mouseInstalls { return false; }
        mouseHook := true;
        clutch.buttons := w.buttons;
      }
      ok := true;
    }

    method RemoveHooks(w: World) returns (ok: bool)
      modifies this`keyboardHook, this`mouseHook
      ensures View() == Uninstall(old(View()), w)
      ensures ok == !RemovalFails(old(View()), w)
    {
      hide KeyboardNeeded, MouseNeeded;
      var keyboardNeeded, mouseNeeded := KeyboardNeeded(View()), MouseNeeded(View());
      ok := true;
      if !mouseNeeded && mouseHook {
        if w.mouseRemoves { mouseHook := false; } else { ok := false; }
      }
      if !keyboardNeeded && keyboardHook {
        if w.keyboardRemoves { keyboardHook := false; } else { ok := false; }
      }
    }

    method Deactivate()
      modifies this`targets
      ensures View() == DeactivateTargets(old(View()))
    {
      var rest := targets.Keys;
      while rest != {}
        invariant targets.Keys == old(targets).Keys && rest <= targets.Keys
        invariant forall pid | pid in targets ::
          targets[pid] == if pid !in rest && old(targets)[pid].selected then MouseTarget(false, false) else old(targets)[pid]
        decreases |rest|
      {
        var pid :| pid in rest;
        if targets[pid].selected { targets := targets[pid := MouseTarget(false, false)]; }
        rest := rest - {pid};
      }
    }

    /** The new snapshot is switched on before the previous one is retired. */
    method ActivateMouse(w: World, source: Pid) returns (ok: bool)
      modifies this`targets
      ensures View() == ActivateTargets(old(View()), w, source) && ok == HasReadyTargets(old(View()), w, source)
    {
      hide HasReadyTargets, Follows;
      if !HasReadyTargets(View(), w, source) { return false; }
      SwitchOn(w, source);
      SwitchOff(w, source);
      ok := true;
    }

    method SwitchOn(w: World, source: Pid)
      modifies this`targets
      ensures targets.Keys == old(targets).Keys
      ensures forall pid | pid in targets ::
                targets[pid] == if Follows(eligible, w.ready, source, pid) then MouseTarget(true, true) else old(targets)[pid]
    {
      var rest := targets.Keys;
      while rest != {}
        invariant targets.Keys == old(targets).Keys && rest <= targets.Keys
        invariant forall pid | pid in targets ::
          targets[pid] == if pid !in rest && Follows(eligible, w.ready, source, pid) then MouseTarget(true, true) else old(targets)[pid]
        decreases |rest|
      {
        var pid :| pid in rest;
        if pid != source && pid in eligible && pid in w.ready { targets := targets[pid := MouseTarget(true, true)]; }
        rest := rest - {pid};
      }
    }

    method SwitchOff(w: World, source: Pid)
      modifies this`targets
      ensures targets.Keys == old(targets).Keys
      ensures forall pid | pid in targets ::
                targets[pid] == if old(targets)[pid].selected && !Follows(eligible, w.ready, source, pid)
                                then MouseTarget(false, false) else old(targets)[pid]
    {
      var rest := targets.Keys;
      while rest != {}
        invariant targets.Keys == old(targets).Keys && rest <= targets.Keys
        invariant forall pid | pid in targets ::
          targets[pid] == if pid !in rest && old(targets)[pid].selected && !Follows(eligible, w.ready, source, pid)
                          then MouseTarget(false, false) else old(targets)[pid]
        decreases |rest|
      {
        var pid :| pid in rest;
        if targets[pid].selected && (pid == source || pid !in eligible || pid !in w.ready) {
          targets := targets[pid := MouseTarget(false, false)];
        }
        rest := rest - {pid};
      }
    }

    method CancelOwners(now: U64)
      modifies this`holds, clutch
      ensures View() == CancelAll(old(View()), now)
    {
      holds := map[];
      clutch.Cancel(now);
    }

    // ----- remote owners -----

    /** `update_remote_mouse_clutch_hold`. */
    method UpdateRemoteHold(w: World, owner: Owner, op: Operation, sequence: U64) returns (reply: Reply)
      modifies this, clutch
      ensures (View(), reply) == RemoteHold(old(View()), w, owner, op, sequence)
    {
      hide BeginHold, RenewHold, EndHold;
      if owner.session in closed { return HoldExpired; }
      var previous := if owner in sequences then sequences[owner] else 0;
      if sequence <= previous { return Holding(owner in holds); }
      sequences := sequences[owner := sequence];
      match op
      case Begin => reply := StartHold(w, owner);
      case Renew => reply := ExtendHold(w, owner);
      case End =>
        StopHold(w, owner);
        reply := Holding(false);
    }

    method StartHold(w: World, owner: Owner) returns (reply: Reply)
      modifies this, clutch
      ensures (View(), reply) == BeginHold(old(View()), w, owner)
    {
      hide Reconcile, ReconcileFails, EngageRemote, HasReadyTargets;
      var deadline := SatAdd(w.now, LEASE_MS);
      if owner in holds {
        holds := holds[owner := holds[owner].(deadline := deadline)];
        return Holding(true);
      }
      if !Available(View(), w) { return NotReady; }
      var source := w.foreground.value;
      var resuming := clutch.phase.Active? && clutch.source == Some(source);
      holds := holds[owner := Hold(source, deadline)];
      var ok := ReconcileHooks(w);
      if !ok {
        holds := holds - {owner};
        var _ := ReconcileHooks(w);
        return OperationFailed;
      }
      if resuming { return Holding(true); }
      reply := EngageForRemote(w, owner, source);
    }

    method EngageForRemote(w: World, owner: Owner, source: Pid) returns (reply: Reply)
      modifies this, clutch
      ensures (View(), reply) == EngageRemote(old(View()), w, owner, source)
    {
      hide Reconcile, ReconcileFails, HasReadyTargets, Retargeted, Activated, ReleaseIfUnowned;
      clutch.buttons := w.buttons;
      ghost var sampled := View();
      var engaged := clutch.Engage(source, true);
      if !engaged {
        holds := holds - {owner};
        var _ := ReconcileHooks(w);
        return NotReady;
      }
      var routed := ActivateMouse(w, source);
      if routed { return Holding(true); }
      holds := holds - {owner};
      clutch.Release(w.now, false);
      var _ := ReconcileHooks(w);
      reply := NotReady;
    }

    method ExtendHold(w: World, owner: Owner) returns (reply: Reply)
      modifies this
      ensures (View(), reply) == RenewHold(old(View()), w, owner)
    {
      if owner !in holds { return HoldExpired; }
      if clutch.phase != Active || clutch.source != Some(holds[owner].source) {
        holds := holds - {owner};
        return HoldExpired;
      }
      holds := holds[owner := holds[owner].(deadline := SatAdd(w.now, LEASE_MS))];
      reply := Holding(true);
    }

    method StopHold(w: World, owner: Owner)
      modifies this, clutch
      ensures View() == EndHold(old(View()), w, owner)
    {
      hide Reconcile, ReconcileFails, ReleaseIfUnowned;
      if owner !in holds { return; }
      holds := holds - {owner};
      clutch.Release(w.now, holds != map[]);
      var _ := ReconcileHooks(w);
    }

    /** `end_remote_mouse_clutch_session`. */
    method CloseSession(w: World, session: Session, sequence: U64)
      modifies this, clutch
      ensures View() == EndSession(old(View()), w, session, sequence)
    {
      hide Reconcile, ReconcileFails, ReleaseIfUnowned, Closing;
      var before := |holds|;
      MarkClosed(session, sequence);
      if |holds| != before {
        clutch.Release(w.now, holds != map[]);
        var _ := ReconcileHooks(w);
      }
    }

    method MarkClosed(session: Session, sequence: U64)
      modifies this`closed, this`closedOrder, this`holds, this`sequences
      ensures View() == Closing(old(View()), session, sequence)
    {
      hide Forget, NotOf;
      if session !in closed { closedOrder := closedOrder + [session]; }
      closed := closed[session := sequence];
      holds, sequences := NotOf(holds, session), NotOf(sequences, session);
      ForgetOldest();
    }

    method ForgetOldest()
      modifies this`closed, this`closedOrder
      ensures (closed, closedOrder) == Forget(old(closed), old(closedOrder))
    {
      while |closedOrder| > REMEMBERED_SESSIONS
        invariant Forget(closed, closedOrder) == Forget(old(closed), old(closedOrder))
        decreases |closedOrder|
      {
        closed, closedOrder := closed - {closedOrder[0]}, closedOrder[1..];
      }
    }

    // ----- key, lifecycle, settings -----

    /** The clutch part of the keyboard hook for a key going down. */
    method HookKeyDown(w: World, vk: Vk) returns (hidden: bool)
      modifies this, clutch
      ensures View() == KeyPressed(old(View()), w, vk) && hidden == Hides(old(View()), w, KeyDown(vk))
    {
      hide HasReadyTargets, Retargeted, Activated;
      if clutch.swallowed == Some(vk) { return true; }
      if pending.Some? || binding != Some(vk) || keyDown { return false; }
      var hasTargets := w.foreground.Some? && HasReadyTargets(View(), w, w.foreground.value);
      keyDown := true;
      if w.foreground.None? || w.foreground.value !in eqPids { return false; }
      var effect := clutch.OnKeyDown(vk, w.foreground.value, hasTargets);
      if effect.Activate? { var _ := ActivateMouse(w, w.foreground.value); }
      hidden := true;
    }

    method HookKeyUp(w: World, vk: Vk) returns (hidden: bool)
      modifies this, clutch
      ensures View() == KeyReleased(old(View()), w, vk) && hidden == Hides(old(View()), w, KeyUp(vk))
    {
      hide ReleaseIfUnowned;
      hidden := clutch.swallowed == Some(vk);
      if hidden {
        keyDown := false;
        var _ := clutch.OnKeyUp(vk, w.now, holds != map[]);
      } else if binding == Some(vk) {
        keyDown := false;
      }
    }

    method ReplaceTargets(w: World, pids: set<Pid>, active: Option<Pid>)
      modifies this, clutch
      ensures View() == UpdateTargets(old(View()), w, pids, active)
    {
      hide CancelBounded, Remapped;
      var sourceGone := clutch.source.Some? && clutch.source.value !in pids;
      var targetGone := exists pid | pid in targets :: targets[pid].selected && pid !in pids;
      if sourceGone || targetGone { CancelOwners(w.now); }
      eqPids, activePid := pids, active;
      targets := Remapped(targets, pids, w.mapped);
    }

    method ReplaceEligible(w: World, pids: set<Pid>)
      modifies this, clutch
      ensures View() == UpdateEligible(old(View()), w, pids)
    {
      hide CancelBounded;
      var lost := exists pid | pid in targets :: targets[pid].selected && pid !in pids;
      eligible := pids;
      if lost { CancelOwners(w.now); }
    }

    method FocusChanged(w: World, pid: Pid)
      modifies this, clutch
      ensures View() == SetActivePid(old(View()), w, pid)
    {
      hide CancelBounded;
      if clutch.source.Some? && clutch.source.value != pid { CancelOwners(w.now); }
      activePid := Some(pid);
    }

    method SetActive(w: World, active: bool)
      modifies this, clutch
      ensures View() == SetBroadcasting(old(View()), w, active)
    {
      hide Reconcile, ReconcileFails;
      if broadcasting == active { return; }
      broadcasting := active;
      var ok := ReconcileHooks(w);
      if active && !ok {
        broadcasting := false;
        var _ := ReconcileHooks(w);
      }
    }

    method ApplyPendingBinding(w: World)
      modifies this, clutch
      ensures View() == ApplyPending(old(View()), w)
    {
      hide Reconcile, ReconcileFails, Unbound;
      if !clutch.phase.Inactive? || clutch.swallowed.Some? || pending.None? { return; }
      binding := pending.value;
      pending := None;
      keyDown := binding.Some? && binding.value in w.keysDown;
      var ok := ReconcileHooks(w);
      if !ok {
        Unbind();
        var _ := ReconcileHooks(w);
      }
    }

    method Unbind()
      modifies this`binding, this`targets, clutch
      ensures View() == Unbound(old(View()))
    {
      hide DeactivateTargets, ForceInactive;
      binding := None;
      Deactivate();
      clutch.Force();
    }

    method OnSettingsChanged(w: World, chosen: Option<Vk>)
      modifies this, clutch
      ensures View() == SettingsChanged(old(View()), w, chosen)
    {
      hide ApplyPending, CancelAll;
      pending := Some(chosen);
      CancelOwners(w.now);
      ApplyPendingBinding(w);
    }

    /** `tick`: expire leases, validate focus and targets, finish a due drain. */
    method Tick(w: World)
      modifies this, clutch
      ensures View() == TickOnce(old(View()), w)
    {
      hide ExpireHolds, Validate, FinishDrain, ApplyPending, Reconcile, ReconcileFails;
      Expire(w.now);
      CheckFocus(w);
      FinishRelease(w.now);
      ApplyPendingBinding(w);
      var _ := ReconcileHooks(w);
    }

    method Expire(now: U64)
      modifies this`holds, clutch
      ensures View() == ExpireHolds(old(View()), now)
    {
      hide ReleaseIfUnowned;
      var before := |holds|;
      holds := map o | o in holds && now < holds[o].deadline :: holds[o];
      if |holds| != before { clutch.Release(now, holds != map[]); }
    }

    method CheckFocus(w: World)
      modifies this`holds, clutch
      ensures View() == Validate(old(View()), w)
    {
      hide StillValid, CancelAll;
      if !clutch.phase.Inactive? && !StillValid(View(), w) { CancelOwners(w.now); }
    }

    method FinishRelease(now: U64)
      modifies this`targets, clutch
      ensures View() == FinishDrain(old(View()), now)
    {
      hide DeactivateTargets, ForceInactive;
      var done := clutch.FinishIfDue(now);
      if done { Deactivate(); }
    }
  }
}
