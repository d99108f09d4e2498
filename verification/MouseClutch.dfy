/** Mouse Clutch: who owns the clutch, which targets follow the mouse, and how long a
    release may take. crates/stonemite/src/broadcast.rs, as functions on values; the
    objects that run them are in MouseClutchState. */
module MouseClutch {
  import opened Foundations

  type Pid = nat
  type Vk = nat
  type Session = U64
  type Button = nat

  const MOUSE_DRAIN_MS: U64 := 90
  const LEASE_MS: U64 := 2000
  const REMEMBERED_SESSIONS: nat := 256

  datatype ClutchPhase = Inactive | Active | Releasing | Draining
  datatype KeyEffect = Pass | Swallow | Activate
  datatype Owner = Owner(session: Session, hold: string)
  datatype Hold = Hold(source: Pid, deadline: U64)
  datatype Operation = Begin | Renew | End
  datatype Reply = Holding(active: bool) | HoldExpired | NotReady | OperationFailed

  /** `mouse_selected` and the flag the target process reads. */
  datatype MouseTarget = MouseTarget(selected: bool, flag: bool)

  /** Pressed buttons are a set, the source's bit mask. */
  datatype Clutch = Clutch(
    phase: ClutchPhase, buttons: set<Button>, swallowed: Option<Vk>, local: bool,
    source: Option<Pid>, drainDeadline: U64)

  datatype Router = Router(
    clutch: Clutch, holds: map<Owner, Hold>, sequences: map<Owner, U64>,
    closed: map<Session, U64>, closedOrder: seq<Session>, targets: map<Pid, MouseTarget>,
    eqPids: set<Pid>, eligible: set<Pid>, activePid: Option<Pid>, broadcasting: bool,
    binding: Option<Vk>, pending: Option<Option<Vk>>, keyDown: bool, keyboardHook: bool, mouseHook: bool)

  /** What Windows answers during one call. */
  datatype World = World(
    now: U64, foreground: Option<Pid>, ready: set<Pid>, alive: set<Pid>, mapped: set<Pid>,
    buttons: set<Button>, keysDown: set<Vk>,
    keyboardInstalls: bool, mouseInstalls: bool, keyboardRemoves: bool, mouseRemoves: bool)

  // ----- the clutch itself -----

  function NewClutch(buttons: set<Button>): Clutch { Clutch(Inactive, buttons, None, false, None, 0) }

  /** The clutch after `activate`, or None when it answers false. */
  function Activated(c: Clutch, source: Pid, hasTargets: bool): Option<Clutch> {
    if c.phase.Active? then (if c.source == Some(source) then Some(c) else None)
    else if c.buttons != {} || !hasTargets then None
    else Some(c.(phase := Active, source := Some(source), drainDeadline := 0))
  }

  function BeginDrain(c: Clutch, now: U64): Clutch {
    c.(phase := Draining, drainDeadline := SatAdd(now, MOUSE_DRAIN_MS))
  }

  function ReleaseIfUnowned(c: Clutch, now: U64, remote: bool): Clutch {
    if c.local || remote || !c.phase.Active? then c
    else if c.buttons == {} then BeginDrain(c, now) else c.(phase := Releasing)
  }

  function SetButton(c: Clutch, button: Button, pressed: bool, now: U64): Clutch {
    var b := c.(buttons := if pressed then c.buttons + {button} else c.buttons - {button});
    if b.phase.Releasing? && b.buttons == {} then BeginDrain(b, now) else b
  }

  function CancelBounded(c: Clutch, now: U64): Clutch {
    var f := c.(local := false);
    if c.phase.Active? || c.phase.Releasing? then BeginDrain(f, now) else f
  }

  function ForceInactive(c: Clutch): Clutch {
    c.(phase := Inactive, local := false, source := None, drainDeadline := 0)
  }

  predicate DrainDue(c: Clutch, now: U64) { c.phase.Draining? && now >= c.drainDeadline }

  // ----- hooks -----

  predicate KeyboardNeeded(s: Router) {
    s.broadcasting || s.binding.Some? || s.pending.Some? || s.clutch.swallowed.Some?
  }

  predicate MouseNeeded(s: Router) {
    s.binding.Some? || s.pending.Some? || s.holds != map[] || !s.clutch.phase.Inactive?
  }

  predicate InstallFails(s: Router, w: World) {
    (KeyboardNeeded(s) && !s.keyboardHook && !w.keyboardInstalls) || (MouseNeeded(s) && !s.mouseHook && !w.mouseInstalls)
  }

  predicate ReconcileFails(s: Router, w: World) {
    InstallFails(s, w) || (!MouseNeeded(s) && s.mouseHook && !w.mouseRemoves)
    || (!KeyboardNeeded(s) && s.keyboardHook && !w.keyboardRemoves)
  }

  /** Installing the mouse hook samples the buttons afresh. */
  function InstallMouse(s: Router, w: World): Router {
    if MouseNeeded(s) && !s.mouseHook && w.mouseInstalls
    then s.(mouseHook := true, clutch := s.clutch.(buttons := w.buttons)) else s
  }

  function Install(s: Router, w: World): Router {
    if KeyboardNeeded(s) && !s.keyboardHook && !w.keyboardInstalls then s
    else InstallMouse(s.(keyboardHook := s.keyboardHook || KeyboardNeeded(s)), w)
  }

  function Uninstall(s: Router, w: World): Router {
    s.(mouseHook := s.mouseHook && (MouseNeeded(s) || !w.mouseRemoves),
       keyboardHook := s.keyboardHook && (KeyboardNeeded(s) || !w.keyboardRemoves))
  }

  /** `reconcile_hooks`. */
  function Reconcile(s: Router, w: World): Router {
    if InstallFails(s, w) then Install(s, w) else Uninstall(Install(s, w), w)
  }

  // ----- targets -----

  predicate Follows(eligible: set<Pid>, ready: set<Pid>, source: Pid, pid: Pid) {
    pid != source && pid in eligible && pid in ready
  }

  predicate HasReadyTargets(s: Router, w: World, source: Pid) {
    source in s.eligible && exists pid | pid in s.targets :: Follows(s.eligible, w.ready, source, pid)
  }

  /** `activate_mouse_targets`, when it answers true. */
  function Retargeted(s: Router, w: World, source: Pid): Router {
    s.(targets := map pid | pid in s.targets ::
         if Follows(s.eligible, w.ready, source, pid) then MouseTarget(true, true)
         else if s.targets[pid].selected then MouseTarget(false, false) else s.targets[pid])
  }

  function ActivateTargets(s: Router, w: World, source: Pid): Router {
    if HasReadyTargets(s, w, source) then Retargeted(s, w, source) else s
  }

  function DeactivateTargets(s: Router): Router {
    s.(targets := map pid | pid in s.targets ::
         if s.targets[pid].selected then MouseTarget(false, false) else s.targets[pid])
  }

  function CancelAll(s: Router, now: U64): Router {
    s.(holds := map[], clutch := CancelBounded(s.clutch, now))
  }

  // ----- remote owners -----

  predicate Available(s: Router, w: World) {
    w.foreground.Some? && s.activePid == w.foreground && w.foreground.value in s.eqPids
    && HasReadyTargets(s, w, w.foreground.value)
  }

  function RemoteHold(s: Router, w: World, owner: Owner, op: Operation, sequence: U64): (Router, Reply) {
    if owner.session in s.closed then (s, HoldExpired)
    else if sequence <= (if owner in s.sequences then s.sequences[owner] else 0) then (s, Holding(owner in s.holds))
    else
      var t := s.(sequences := s.sequences[owner := sequence]);
      match op
      case Begin => BeginHold(t, w, owner)
      case Renew => RenewHold(t, w, owner)
      case End => (EndHold(t, w, owner), Holding(false))
  }

  function BeginHold(s: Router, w: World, owner: Owner): (Router, Reply) {
    var deadline := SatAdd(w.now, LEASE_MS);
    if owner in s.holds then (s.(holds := s.holds[owner := s.holds[owner].(deadline := deadline)]), Holding(true))
    else if !Available(s, w) then (s, NotReady)
    else
      var source := w.foreground.value;
      var resuming := s.clutch.phase.Active? && s.clutch.source == Some(source);
      var added := s.(holds := s.holds[owner := Hold(source, deadline)]);
      var hooked := Reconcile(added, w);
      if ReconcileFails(added, w) then (Reconcile(Dropped(hooked, owner), w), OperationFailed)
      else if resuming then (hooked, Holding(true))
      else EngageRemote(hooked, w, owner, source)
  }

  function Dropped(s: Router, owner: Owner): Router { s.(holds := s.holds - {owner}) }

  /** The rest of `Begin` when the clutch is not already active for this source. */
  function EngageRemote(s: Router, w: World, owner: Owner, source: Pid): (Router, Reply) {
    var sampled := s.(clutch := s.clutch.(buttons := w.buttons));
    match Activated(sampled.clutch, source, true)
    case None => (Reconcile(Dropped(sampled, owner), w), NotReady)
    case Some(c) =>
      var active := sampled.(clutch := c);
      if HasReadyTargets(active, w, source) then (Retargeted(active, w, source), Holding(true))
      else
        var dropped := Dropped(active, owner);
        (Reconcile(dropped.(clutch := ReleaseIfUnowned(c, w.now, false)), w), NotReady)
  }

  function RenewHold(s: Router, w: World, owner: Owner): (Router, Reply) {
    if owner !in s.holds then (s, HoldExpired)
    else if !s.clutch.phase.Active? || s.clutch.source != Some(s.holds[owner].source) then (Dropped(s, owner), HoldExpired)
    else (s.(holds := s.holds[owner := s.holds[owner].(deadline := SatAdd(w.now, LEASE_MS))]), Holding(true))
  }

  function EndHold(s: Router, w: World, owner: Owner): Router {
    if owner !in s.holds then s else Reconcile(Released(Dropped(s, owner), w.now), w)
  }

  /** `release_if_unowned` against the remaining holds. */
  function Released(s: Router, now: U64): Router {
    s.(clutch := ReleaseIfUnowned(s.clutch, now, s.holds != map[]))
  }

  function Forget(closed: map<Session, U64>, order: seq<Session>): (map<Session, U64>, seq<Session>)
    decreases |order|
  {
    if |order| > REMEMBERED_SESSIONS then Forget(closed - {order[0]}, order[1..]) else (closed, order)
  }

  /** The session is remembered as closed and loses its holds and sequences. */
  function Closing(s: Router, session: Session, sequence: U64): Router {
    var f := Forget(s.closed[session := sequence], if session in s.closed then s.closedOrder else s.closedOrder + [session]);
    s.(closed := f.0, closedOrder := f.1,
       holds := NotOf(s.holds, session), sequences := NotOf(s.sequences, session))
  }

  function NotOf<V>(m: map<Owner, V>, session: Session): map<Owner, V> {
    map o | o in m && o.session != session :: m[o]
  }

  function EndSession(s: Router, w: World, session: Session, sequence: U64): Router {
    var ended := Closing(s, session, sequence);
    if |ended.holds| == |s.holds| then ended else Reconcile(Released(ended, w.now), w)
  }

  // ----- local key and buttons -----

  /** The clutch part of the low-level keyboard hook. */
  function KeyPressed(s: Router, w: World, vk: Vk): Router {
    if s.clutch.swallowed == Some(vk) || s.pending.Some? || s.binding != Some(vk) || s.keyDown then s
    else
      var down := s.(keyDown := true);
      if w.foreground.None? || w.foreground.value !in s.eqPids then down
      else
        var source := w.foreground.value;
        var c := down.clutch.(swallowed := Some(vk));
        match Activated(c, source, HasReadyTargets(s, w, source))
        case None => down.(clutch := c)
        case Some(a) => ActivateTargets(down.(clutch := a.(local := true)), w, source)
  }

  function KeyReleased(s: Router, w: World, vk: Vk): Router {
    if s.clutch.swallowed == Some(vk) then
      Released(s.(keyDown := false, clutch := s.clutch.(swallowed := None, local := false)), w.now)
    else if s.binding == Some(vk) then s.(keyDown := false) else s
  }

  // ----- lifecycle -----

  function UpdateTargets(s: Router, w: World, pids: set<Pid>, active: Option<Pid>): Router {
    var gone := (s.clutch.source.Some? && s.clutch.source.value !in pids)
                || exists pid | pid in s.targets :: s.targets[pid].selected && pid !in pids;
    var c := if gone then CancelAll(s, w.now) else s;
    c.(eqPids := pids, activePid := active, targets := Remapped(s.targets, pids, w.mapped))
  }

  /** Gone processes lose their target; new ones get an unflagged one if mapping works. */
  function Remapped(targets: map<Pid, MouseTarget>, pids: set<Pid>, mapped: set<Pid>): map<Pid, MouseTarget> {
    map pid | pid in pids && (pid in targets || pid in mapped) ::
      if pid in targets then targets[pid] else MouseTarget(false, false)
  }

  function UpdateEligible(s: Router, w: World, pids: set<Pid>): Router {
    var e := s.(eligible := pids);
    if exists pid | pid in s.targets :: s.targets[pid].selected && pid !in pids then CancelAll(e, w.now) else e
  }

  function SetActivePid(s: Router, w: World, pid: Pid): Router {
    (if s.clutch.source.Some? && s.clutch.source.value != pid then CancelAll(s, w.now) else s).(activePid := Some(pid))
  }

  function SetBroadcasting(s: Router, w: World, active: bool): Router {
    if s.broadcasting == active then s
    else
      var b := s.(broadcasting := active);
      if active && ReconcileFails(b, w) then Reconcile(Reconcile(b, w).(broadcasting := false), w) else Reconcile(b, w)
  }

  function Rebound(s: Router, w: World): Router
    requires s.pending.Some?
  {
    s.(pending := None, binding := s.pending.value,
       keyDown := s.pending.value.Some? && s.pending.value.value in w.keysDown)
  }

  /** No hook, no binding. */
  function Unbound(s: Router): Router {
    var off := DeactivateTargets(s.(binding := None));
    off.(clutch := ForceInactive(off.clutch))
  }

  function ApplyPending(s: Router, w: World): Router {
    if !s.clutch.phase.Inactive? || s.clutch.swallowed.Some? || s.pending.None? then s
    else
      var r := Reconcile(Rebound(s, w), w);
      if ReconcileFails(Rebound(s, w), w) then Reconcile(Unbound(r), w) else r
  }

  function SettingsChanged(s: Router, w: World, binding: Option<Vk>): Router {
    ApplyPending(CancelAll(s.(pending := Some(binding)), w.now), w)
  }

  function ExpireHolds(s: Router, now: U64): Router {
    var kept := map o | o in s.holds && now < s.holds[o].deadline :: s.holds[o];
    if |kept| == |s.holds| then s.(holds := kept) else Released(s.(holds := kept), now)
  }

  predicate StillValid(s: Router, w: World) {
    s.clutch.source.Some? && s.clutch.source == w.foreground && s.clutch.source.value in s.eqPids
    && (forall pid | pid in s.targets && s.targets[pid].selected :: pid in w.ready && pid in w.alive)
    && exists pid | pid in s.targets :: s.targets[pid].selected
  }

  function Validate(s: Router, w: World): Router {
    if !s.clutch.phase.Inactive? && !StillValid(s, w) then CancelAll(s, w.now) else s
  }

  function FinishDrain(s: Router, now: U64): Router {
    if DrainDue(s.clutch, now) then DeactivateTargets(s.(clutch := ForceInactive(s.clutch))) else s
  }

  function TickOnce(s: Router, w: World): Router {
    Reconcile(ApplyPending(FinishDrain(Validate(ExpireHolds(s, w.now), w), w.now), w), w)
  }

  // ----- steps and runs -----

  datatype Event =
    | KeyDown(vk: Vk) | KeyUp(vk: Vk) | ButtonMoved(button: Button, pressed: bool)
    | Remote(owner: Owner, op: Operation, sequence: U64) | SessionEnded(session: Session, sequence: U64)
    | TargetsChanged(pids: set<Pid>, active: Option<Pid>) | EligibleChanged(pids: set<Pid>)
    | ActiveChanged(pid: Pid) | BroadcastSet(on: bool) | NewSettings(binding: Option<Vk>) | Ticked

  datatype Step = Step(world: World, event: Event)

  function StepOnce(s: Router, step: Step): Router {
    var w := step.world;
    match step.event
    case KeyDown(vk) => KeyPressed(s, w, vk)
    case KeyUp(vk) => KeyReleased(s, w, vk)
    case ButtonMoved(button, pressed) => s.(clutch := SetButton(s.clutch, button, pressed, w.now))
    case Remote(owner, op, sequence) => RemoteHold(s, w, owner, op, sequence).0
    case SessionEnded(session, sequence) => EndSession(s, w, session, sequence)
    case TargetsChanged(pids, active) => UpdateTargets(s, w, pids, active)
    case EligibleChanged(pids) => UpdateEligible(s, w, pids)
    case ActiveChanged(pid) => SetActivePid(s, w, pid)
    case BroadcastSet(on) => SetBroadcasting(s, w, on)
    case NewSettings(binding) => SettingsChanged(s, w, binding)
    case Ticked => TickOnce(s, w)
  }

  function Start(w: World, binding: Option<Vk>): Router {
    var s := Router(NewClutch(w.buttons), map[], map[], map[], [], map[], {}, {}, None, false,
                    binding, None, binding.Some? && binding.value in w.keysDown, false, false);
    if ReconcileFails(s, w) then Reconcile(Reconcile(s, w).(binding := None), w) else Reconcile(s, w)
  }

  function Run(s: Router, steps: seq<Step>): Router {
    if steps == [] then s else StepOnce(Run(s, steps[..|steps| - 1]), steps[|steps| - 1])
  }
}
