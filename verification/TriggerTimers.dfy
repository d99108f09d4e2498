/** Trigger timers on a virtual clock: firing with lockout, the five restart modes,
    warnings, natural and early ends, bounded looping. crates/eqtrigger/src/engine.rs.
    Times are whole milliseconds. */
module TriggerTimers {
  import opened Foundations

  type Millis = nat

  datatype RestartMode = StartNew | RestartAll | RestartSameName | IgnoreIfAnyRunning | IgnoreIfSameNameRunning

  datatype Behavior = Behavior(
    mode: RestartMode, looping: bool, timesToLoop: nat, duration: Millis, warning: Millis)

  datatype Trigger = Trigger(lockout: Millis, timer: Option<Behavior>)

  type Library = nat -> Trigger

  /** `serial` and `fire` name the timer and the firing it goes back to; they are history
      only and decide nothing. */
  datatype Timer = Timer(
    serial: nat, fire: nat, trigger: nat, name: string, begin: Millis, end: Millis,
    warningAt: Option<Millis>, warned: bool, loopCount: nat)

  datatype Restart = Restart(fire: nat, loop: nat)
  datatype Firing = Firing(trigger: nat, at: Millis)

  /** One character's timers, with the history of what happened to them. */
  datatype Board = Board(
    timers: seq<Timer>, lockoutUntil: map<nat, Millis>, nextSerial: nat, nextFire: nat,
    warnings: seq<nat>, ends: seq<nat>, restarts: seq<Restart>, firings: seq<Firing>)

  const EMPTY_BOARD := Board([], map[], 0, 0, [], [], [], [])

  predicate SameName(a: string, b: string) { Lower(a) == Lower(b) }

  /** Whether `retain` drops the timer: same trigger and, if a name is given, same name. */
  predicate Matches(t: Timer, trigger: nat, name: Option<string>) {
    t.trigger == trigger && (name.Some? ==> SameName(t.name, name.value))
  }

  function Retained(ts: seq<Timer>, trigger: nat, name: Option<string>): seq<Timer> {
    if ts == [] then []
    else
      var last := ts[|ts| - 1];
      Retained(ts[..|ts| - 1], trigger, name) + (if Matches(last, trigger, name) then [] else [last])
  }

  predicate Running(ts: seq<Timer>, trigger: nat, name: Option<string>) {
    exists i :: 0 <= i < |ts| && Matches(ts[i], trigger, name)
  }

  /** What a firing of a trigger asks for. */
  datatype Request = Request(trigger: nat, name: string, duration: Millis, at: Millis, loopCount: nat, fire: nat)

  function NewTimer(b: Behavior, r: Request, serial: nat): Timer {
    Timer(serial, r.fire, r.trigger, r.name, r.at, r.at + r.duration,
          if b.warning > 0 && r.duration > b.warning then Some(r.at + r.duration - b.warning) else None,
          false, r.loopCount)
  }

  function Push(s: Board, b: Behavior, r: Request): Board {
    s.(timers := s.timers + [NewTimer(b, r, s.nextSerial)], nextSerial := s.nextSerial + 1)
  }

  /** `start_timer`. */
  function StartTimer(s: Board, b: Behavior, r: Request): Board {
    match b.mode
    case StartNew => Push(s, b, r)
    case RestartAll => Push(s.(timers := Retained(s.timers, r.trigger, None)), b, r)
    case RestartSameName => Push(s.(timers := Retained(s.timers, r.trigger, Some(r.name))), b, r)
    case IgnoreIfAnyRunning => if Running(s.timers, r.trigger, None) then s else Push(s, b, r)
    case IgnoreIfSameNameRunning => if Running(s.timers, r.trigger, Some(r.name)) then s else Push(s, b, r)
  }

  predicate LockedOut(lib: Library, s: Board, trigger: nat, now: Millis) {
    lib(trigger).lockout > 0 && trigger in s.lockoutUntil && now <= s.lockoutUntil[trigger]
  }

  /** The timer part of `handle_trigger`, once the lockout let it through. */
  function Started(lib: Library, s: Board, trigger: nat, name: string, dynamic: Option<Millis>, now: Millis, loopCount: nat, fire: nat): Board {
    match lib(trigger).timer
    case None => s
    case Some(b) =>
      if b.duration > 0 || dynamic.Some?
      then StartTimer(s, b, Request(trigger, name, if dynamic.Some? then dynamic.value else b.duration, now, loopCount, fire))
      else s
  }

  /** `handle_trigger` for a matched line. */
  function Fire(lib: Library, s: Board, trigger: nat, name: string, dynamic: Option<Millis>, now: Millis): Board {
    if LockedOut(lib, s, trigger, now) then s
    else Started(lib, Accepted(lib, s, trigger, now), trigger, name, dynamic, now, 0, s.nextFire)
  }

  /** The firing is accepted and opens a new lockout. */
  function Accepted(lib: Library, s: Board, trigger: nat, now: Millis): Board {
    s.(lockoutUntil := if lib(trigger).lockout > 0 then s.lockoutUntil[trigger := now + lib(trigger).lockout] else s.lockoutUntil,
       nextFire := s.nextFire + 1, firings := s.firings + [Firing(trigger, now)])
  }

  // ----- the clock -----

  predicate WarningDue(t: Timer, now: Millis) { !t.warned && t.warningAt.Some? && now >= t.warningAt.value }
  predicate EndDue(t: Timer, now: Millis) { now >= t.end }

  /** The warning loop over the first n positions. */
  function WarnUpTo(s: Board, now: Millis, n: nat): (r: Board)
    requires n <= |s.timers|
    ensures |r.timers| == |s.timers|
  {
    if n == 0 then s
    else
      var w := WarnUpTo(s, now, n - 1);
      var t := w.timers[n - 1];
      if WarningDue(t, now)
      then w.(timers := w.timers[n - 1 := t.(warned := true)], warnings := w.warnings + [t.serial]) else w
  }

  /** The timers of which `EndDue` is `due`, in order. */
  function Due(ts: seq<Timer>, now: Millis, due: bool): seq<Timer> {
    if ts == [] then []
    else
      var last := ts[|ts| - 1];
      Due(ts[..|ts| - 1], now, due) + (if EndDue(last, now) == due then [last] else [])
  }

  /** The name a restarted timer resolves to may differ from the one it had. */
  type Naming = Timer -> string

  predicate Loops(lib: Library, t: Timer) {
    lib(t.trigger).timer.Some? && lib(t.trigger).timer.value.looping && lib(t.trigger).timer.value.timesToLoop > t.loopCount
  }

  /** One naturally ended timer: its end is fired, then perhaps its restart, which
      bypasses the lockout. */
  function EndOne(lib: Library, s: Board, t: Timer, now: Millis, naming: Naming): Board {
    var e := s.(ends := s.ends + [t.serial]);
    if Loops(lib, t)
    then Started(lib, e.(restarts := e.restarts + [Restart(t.fire, t.loopCount + 1)]), t.trigger, naming(t), None, now, t.loopCount + 1, t.fire)
    else e
  }

  function EndAll(lib: Library, s: Board, ended: seq<Timer>, now: Millis, naming: Naming): Board
    decreases |ended|
  { if ended == [] then s else EndAll(lib, EndOne(lib, s, ended[0], now, naming), ended[1..], now, naming) }

  /** `advance`. */
  function Advance(lib: Library, s: Board, now: Millis, naming: Naming): Board {
    var w := WarnUpTo(s, now, |s.timers|);
    EndAll(lib, w.(timers := Due(w.timers, now, false)), Due(w.timers, now, true), now, naming)
  }

  /** `check_timer_enders`: which timers the line ends is up to their enders. */
  function EndEarly(s: Board, matched: set<nat>): Board {
    s.(timers := Unmatched(s.timers, matched, false), ends := s.ends + Serials(Unmatched(s.timers, matched, true)))
  }

  function Unmatched(ts: seq<Timer>, matched: set<nat>, take: bool): seq<Timer> {
    if ts == [] then []
    else
      var last := ts[|ts| - 1];
      Unmatched(ts[..|ts| - 1], matched, take) + (if (last.serial in matched) == take then [last] else [])
  }

  function Serials(ts: seq<Timer>): (r: seq<nat>)
    ensures |r| == |ts|
  { seq(|ts|, i requires 0 <= i < |ts| => ts[i].serial) }

  // ----- steps and runs -----

  datatype Step =
    | Fired(trigger: nat, name: string, dynamic: Option<Millis>, now: Millis)
    | Advanced(now: Millis, naming: Naming)
    | LineEnded(matched: set<nat>)

  function StepOnce(lib: Library, s: Board, step: Step): Board {
    match step
    case Fired(trigger, name, dynamic, now) => Fire(lib, s, trigger, name, dynamic, now)
    case Advanced(now, naming) => Advance(lib, s, now, naming)
    case LineEnded(matched) => EndEarly(s, matched)
  }

  function Run(lib: Library, steps: seq<Step>): Board {
    if steps == [] then EMPTY_BOARD else StepOnce(lib, Run(lib, steps[..|steps| - 1]), steps[|steps| - 1])
  }
}
