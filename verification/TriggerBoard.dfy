/** One character's timer state as the object the trigger engine updates; every method
    is proved against its function in TriggerTimers. */
module TriggerBoard {
  import opened Foundations
  import opened TriggerTimers

  class CharacterTimers {
    const lib: Library
    var timers: seq<Timer>
    var lockoutUntil: map<nat, Millis>
    var nextSerial: nat
    var nextFire: nat
    var warnings: seq<nat>
    var ends: seq<nat>
    var restarts: seq<Restart>
    var firings: seq<Firing>

    function View(): Board
      reads this
    { Board(timers, lockoutUntil, nextSerial, nextFire, warnings, ends, restarts, firings) }

    constructor (lib: Library)
      ensures View() == EMPTY_BOARD && this.lib == lib
    {
      this.lib := lib;
      timers, lockoutUntil, nextSerial, nextFire := [], map[], 0, 0;
      warnings, ends, restarts, firings := [], [], [], [];
    }

    /** `retain`. */
    method DropMatching(trigger: nat, name: Option<string>)
      modifies this`timers
      ensures timers == Retained(old(timers), trigger, name)
    {
      hide Matches;
      var all := timers;
      timers := [];
      for i := 0 to |all|
        invariant timers == Retained(all[..i], trigger, name)
      {
        assert all[..i + 1][..i] == all[..i];
        if !Matches(all[i], trigger, name) { timers := timers + [all[i]]; }
      }
      assert all[..|all|] == all;
    }

    method AnyMatching(trigger: nat, name: Option<string>) returns (found: bool)
      ensures found == Running(timers, trigger, name)
    {
      hide Matches;
      for i := 0 to |timers|
        invariant forall j | 0 <= j < i :: !Matches(timers[j], trigger, name)
      {
        if Matches(timers[i], trigger, name) { return true; }
      }
      found := false;
    }

    /** `start_timer`. */
    method Start(b: Behavior, r: Request)
      modifies this`timers, this`nextSerial
      ensures View() == StartTimer(old(View()), b, r)
    {
      hide Retained, Running;
      match b.mode {
        case StartNew =>
        case RestartAll => DropMatching(r.trigger, None);
        case RestartSameName => DropMatching(r.trigger, Some(r.name));
        case IgnoreIfAnyRunning =>
          var found := AnyMatching(r.trigger, None);
          if found { return; }
        case IgnoreIfSameNameRunning =>
          var found := AnyMatching(r.trigger, Some(r.name));
          if found { return; }
      }
      timers := timers + [NewTimer(b, r, nextSerial)];
      nextSerial := nextSerial + 1;
    }

    method StartFor(trigger: nat, name: string, dynamic: Option<Millis>, now: Millis, loopCount: nat, fire: nat)
      modifies this`timers, this`nextSerial
      ensures View() == Started(lib, old(View()), trigger, name, dynamic, now, loopCount, fire)
    {
      hide StartTimer;
      var behavior := lib(trigger).timer;
      if behavior.Some? && (behavior.value.duration > 0 || dynamic.Some?) {
        Start(behavior.value, Request(trigger, name, if dynamic.Some? then dynamic.value else behavior.value.duration, now, loopCount, fire));
      }
    }

    /** `handle_trigger` for a matched line: the lockout, then the timer. */
    method Handle(trigger: nat, name: string, dynamic: Option<Millis>, now: Millis)
      modifies this
      ensures View() == Fire(lib, old(View()), trigger, name, dynamic, now)
    {
      hide Started;
      if lib(trigger).lockout > 0 {
        if trigger in lockoutUntil && now <= lockoutUntil[trigger] { return; }
        lockoutUntil := lockoutUntil[trigger := now + lib(trigger).lockout];
      }
      firings := firings + [Firing(trigger, now)];
      nextFire := nextFire + 1;
      StartFor(trigger, name, dynamic, now, 0, nextFire - 1);
    }

    method Warn(now: Millis)
      modifies this`timers, this`warnings
      ensures View() == WarnUpTo(old(View()), now, |old(timers)|)
    {
      for i := 0 to |timers|
        invariant |timers| == |old(timers)| && View() == WarnUpTo(old(View()), now, i)
      {
        if !timers[i].warned && timers[i].warningAt.Some? && now >= timers[i].warningAt.value {
          warnings := warnings + [timers[i].serial];
          timers := timers[i := timers[i].(warned := true)];
        }
      }
    }

    /** The ended timers are collected first: firing them may start loop timers. */
    method TakeEnded(now: Millis) returns (ended: seq<Timer>)
      modifies this`timers
      ensures timers == Due(old(timers), now, false) && ended == Due(old(timers), now, true)
    {
      var all := timers;
      timers, ended := [], [];
      for i := 0 to |all|
        invariant timers == Due(all[..i], now, false) && ended == Due(all[..i], now, true)
      {
        assert all[..i + 1][..i] == all[..i];
        if now >= all[i].end { ended := ended + [all[i]]; } else { timers := timers + [all[i]]; }
      }
      assert all[..|all|] == all;
    }

    method FireEnd(t: Timer, now: Millis, naming: Naming)
      modifies this
      ensures View() == EndOne(lib, old(View()), t, now, naming)
    {
      hide Started;
      ends := ends + [t.serial];
      var behavior := lib(t.trigger).timer;
      if behavior.Some? && behavior.value.looping && behavior.value.timesToLoop > t.loopCount {
        restarts := restarts + [Restart(t.fire, t.loopCount + 1)];
        StartFor(t.trigger, naming(t), None, now, t.loopCount + 1, t.fire);
      }
    }

    /** `advance`. */
    method AdvanceClock(now: Millis, naming: Naming)
      modifies this
      ensures View() == Advance(lib, old(View()), now, naming)
    {
      hide WarnUpTo, Due, EndOne;
      Warn(now);
      var ended := TakeEnded(now);
      ghost var start := View();
      for i := 0 to |ended|
        invariant EndAll(lib, View(), ended[i..], now, naming) == EndAll(lib, start, ended, now, naming)
      {
        assert ended[i..][0] == ended[i] && ended[i..][1..] == ended[i + 1..];
        FireEnd(ended[i], now, naming);
      }
      assert ended[|ended|..] == [];
    }

    /** `check_timer_enders`, the set of timers whose enders match being given. */
    method CheckEnders(matched: set<nat>)
      modifies this`timers, this`ends
      ensures View() == EndEarly(old(View()), matched)
    {
      var all := timers;
      var ended: seq<Timer> := [];
      timers := [];
      for i := 0 to |all|
        invariant timers == Unmatched(all[..i], matched, false) && ended == Unmatched(all[..i], matched, true)
        invariant ends == old(ends)
      {
        assert all[..i + 1][..i] == all[..i];
        if all[i].serial in matched { ended := ended + [all[i]]; } else { timers := timers + [all[i]]; }
      }
      assert all[..|all|] == all;
      ends := ends + Serials(ended);
    }
  }
}
