/** What whole runs of trigger timers keep. */
module TriggerTimersSafety {
  import opened Foundations
  import opened TriggerTimers

  // ----- pairs of timers -----

  /** Two timers of one trigger may run together only as its restart mode allows. */
  predicate Compatible(lib: Library, a: Timer, b: Timer) {
    a.trigger == b.trigger && lib(a.trigger).timer.Some? ==>
      match lib(a.trigger).timer.value.mode
      case StartNew => true
      case RestartAll => false
      case IgnoreIfAnyRunning => false
      case RestartSameName => !SameName(a.name, b.name)
      case IgnoreIfSameNameRunning => !SameName(a.name, b.name)
  }

  predicate AllCompatible(lib: Library, ts: seq<Timer>) {
    forall i, j | 0 <= i < j < |ts| :: Compatible(lib, ts[i], ts[j])
  }

  /** Different timers, going back to different firings. */
  predicate AllApart(ts: seq<Timer>) {
    forall i, j | 0 <= i < j < |ts| :: ts[i].serial != ts[j].serial && ts[i].fire != ts[j].fire
  }

  // ----- the history of each timer -----

  predicate Distinct(xs: seq<nat>) { forall i, j | 0 <= i < j < |xs| :: xs[i] != xs[j] }
  predicate Below(xs: seq<nat>, n: nat) { forall i | 0 <= i < |xs| :: xs[i] < n }

  /** `all` are the timers that are running or about to be ended. */
  predicate Known(s: Board, all: seq<Timer>) {
    forall i | 0 <= i < |all| ::
      all[i].serial < s.nextSerial && all[i].fire < s.nextFire
      && all[i].serial !in s.ends && (!all[i].warned ==> all[i].serial !in s.warnings)
  }

  /** Warned at most once and ended at most once. */
  predicate OnceEach(s: Board) {
    Distinct(s.warnings) && Below(s.warnings, s.nextSerial) && Distinct(s.ends) && Below(s.ends, s.nextSerial)
  }

  // ----- looping -----

  /** The loop numbers of one firing's restarts go up, and no further than its timer. */
  predicate LoopsRise(s: Board, all: seq<Timer>) {
    (forall i, j | 0 <= i < j < |s.restarts| && s.restarts[i].fire == s.restarts[j].fire :: s.restarts[i].loop < s.restarts[j].loop)
    && (forall i | 0 <= i < |s.restarts| :: s.restarts[i].fire < s.nextFire && s.restarts[i].loop >= 1)
    && forall i, k | 0 <= i < |all| && 0 <= k < |s.restarts| && s.restarts[k].fire == all[i].fire :: s.restarts[k].loop <= all[i].loopCount
  }

  /** The trigger of each firing, in the order of their numbers. */
  predicate LoopsBounded(lib: Library, s: Board, all: seq<Timer>) {
    |s.firings| == s.nextFire
    && (forall i | 0 <= i < |all| :: all[i].fire < |s.firings| && s.firings[all[i].fire].trigger == all[i].trigger)
    && forall k | 0 <= k < |s.restarts| :: s.restarts[k].fire < |s.firings| && s.restarts[k].loop <= MaxLoops(lib, s.firings[s.restarts[k].fire].trigger)
  }

  function MaxLoops(lib: Library, trigger: nat): nat {
    if lib(trigger).timer.Some? && lib(trigger).timer.value.looping then lib(trigger).timer.value.timesToLoop else 0
  }

  // ----- lockout -----

  /** Accepted firings of a locked-out trigger are more than the lockout apart. */
  predicate Spaced(lib: Library, s: Board) {
    (forall i, j | 0 <= i < j < |s.firings| && s.firings[i].trigger == s.firings[j].trigger ::
       lib(s.firings[i].trigger).lockout > 0 ==> s.firings[i].at + lib(s.firings[i].trigger).lockout < s.firings[j].at)
    && forall i | 0 <= i < |s.firings| && lib(s.firings[i].trigger).lockout > 0 ::
         s.firings[i].trigger in s.lockoutUntil
         && s.firings[i].at + lib(s.firings[i].trigger).lockout <= s.lockoutUntil[s.firings[i].trigger]
  }

  /** The invariant, while the timers of `queue` wait for their end to be fired. */
  predicate InvWith(lib: Library, s: Board, queue: seq<Timer>) {
    AllCompatible(lib, s.timers) && AllApart(s.timers + queue) && Known(s, s.timers + queue) && OnceEach(s)
    && LoopsRise(s, s.timers + queue) && LoopsBounded(lib, s, s.timers + queue) && Spaced(lib, s)
  }

  predicate Inv(lib: Library, s: Board) { InvWith(lib, s, []) }

  // ----- filtering keeps pairs and members -----

  /** `some` is `all` with timers left out. */
  ghost predicate Filtered(some: seq<Timer>, all: seq<Timer>) {
    exists at: seq<nat> :: Picks(at, some, all)
  }

  predicate Picks(at: seq<nat>, some: seq<Timer>, all: seq<Timer>) {
    |at| == |some| && (forall i | 0 <= i < |some| :: at[i] < |all| && some[i] == all[at[i]])
    && forall i, j | 0 <= i < j < |some| :: at[i] < at[j]
  }

  lemma PicksAll(all: seq<Timer>)
    ensures Filtered(all, all)
  {
    var at: seq<nat> := seq(|all|, i => i);
    assert Picks(at, all, all);
  }

  lemma FilterGrows(some: seq<Timer>, all: seq<Timer>, t: Timer)
    requires Filtered(some, all)
    ensures Filtered(some, all + [t]) && Filtered(some + [t], all + [t])
  {
    var at: seq<nat> :| Picks(at, some, all);
    assert Picks(at, some, all + [t]);
    assert Picks(at + [|all|], some + [t], all + [t]);
  }

  lemma {:induction false} RetainedFilters(ts: seq<Timer>, trigger: nat, name: Option<string>)
    ensures Filtered(Retained(ts, trigger, name), ts)
  {
    if ts == [] {
      PicksAll(ts);
    } else {
      hide Filtered, Matches;
      var n := |ts| - 1;
      RetainedFilters(ts[..n], trigger, name);
      FilterGrows(Retained(ts[..n], trigger, name), ts[..n], ts[n]);
      assert ts == ts[..n] + [ts[n]];
      assert Retained(ts[..n], trigger, name) + [] == Retained(ts[..n], trigger, name);
    }
  }

  lemma {:induction false} RetainedStops(ts: seq<Timer>, trigger: nat, name: Option<string>)
    ensures !Running(Retained(ts, trigger, name), trigger, name)
  {
    if ts != [] {
      hide Matches;
      RetainedStops(ts[..|ts| - 1], trigger, name);
    }
  }

  lemma FilteredFacts(lib: Library, s: Board, some: seq<Timer>, all: seq<Timer>)
    requires Filtered(some, all)
    ensures AllCompatible(lib, all) ==> AllCompatible(lib, some)
    ensures AllApart(all) ==> AllApart(some)
    ensures Known(s, all) ==> Known(s, some)
    ensures LoopsRise(s, all) ==> LoopsRise(s, some)
    ensures LoopsBounded(lib, s, all) ==> LoopsBounded(lib, s, some)
  {
    hide Compatible;
    var at: seq<nat> :| Picks(at, some, all);
  }

  lemma FilteredWithQueue(some: seq<Timer>, all: seq<Timer>, queue: seq<Timer>)
    requires Filtered(some, all)
    ensures Filtered(some + queue, all + queue)
  {
    var at: seq<nat> :| Picks(at, some, all);
    var more: seq<nat> := at + seq(|queue|, i requires 0 <= i < |queue| => |all| + i);
    assert Picks(more, some + queue, all + queue);
  }

  lemma DropKeeps(lib: Library, s: Board, some: seq<Timer>, queue: seq<Timer>)
    requires InvWith(lib, s, queue) && Filtered(some, s.timers)
    ensures InvWith(lib, s.(timers := some), queue)
  {
    hide Filtered, AllCompatible, AllApart, Known, LoopsRise, LoopsBounded, OnceEach, Spaced;
    FilteredFacts(lib, s, some, s.timers);
    FilteredWithQueue(some, s.timers, queue);
    FilteredFacts(lib, s, some + queue, s.timers + queue);
    FactsIgnoreTimers(lib, s, some, some + queue);
  }

  lemma FactsIgnoreTimers(lib: Library, s: Board, ts: seq<Timer>, all: seq<Timer>)
    ensures Known(s, all) ==> Known(s.(timers := ts), all)
    ensures LoopsRise(s, all) ==> LoopsRise(s.(timers := ts), all)
    ensures LoopsBounded(lib, s, all) ==> LoopsBounded(lib, s.(timers := ts), all)
    ensures OnceEach(s) ==> OnceEach(s.(timers := ts))
    ensures Spaced(lib, s) ==> Spaced(lib, s.(timers := ts))
  {}

  // ----- starting -----

  lemma NewIsCompatible(lib: Library, s: Board, b: Behavior, r: Request)
    requires AllCompatible(lib, s.timers) && lib(r.trigger).timer == Some(b)
    requires b.mode.StartNew? || !Running(s.timers, r.trigger, if b.mode.RestartAll? || b.mode.IgnoreIfAnyRunning? then None else Some(r.name))
    ensures AllCompatible(lib, Push(s, b, r).timers)
  {
    hide SameName;
    var t := NewTimer(b, r, s.nextSerial);
    forall i | 0 <= i < |s.timers| ensures Compatible(lib, s.timers[i], t) {
      assert b.mode.StartNew? || !Matches(s.timers[i], r.trigger, if b.mode.RestartAll? || b.mode.IgnoreIfAnyRunning? then None else Some(r.name));
    }
  }

  /** The new timer's firing is not yet behind any other timer, and its restarts so far
      do not exceed its loop number. */
  predicate FreshRequest(s: Board, all: seq<Timer>, r: Request) {
    r.fire < s.nextFire && r.fire < |s.firings| && s.firings[r.fire].trigger == r.trigger
    && (forall i | 0 <= i < |all| :: all[i].fire != r.fire)
    && forall k | 0 <= k < |s.restarts| && s.restarts[k].fire == r.fire :: s.restarts[k].loop <= r.loopCount
  }

  /** Every timer of the longer list is the new one or stands in the old list, in order. */
  lemma Insertion(a: seq<Timer>, t: Timer, b: seq<Timer>, i: nat)
    requires i < |a| + 1 + |b|
    ensures (a + [t] + b)[i] == if i < |a| then (a + b)[i] else if i == |a| then t else (a + b)[i - 1]
  {}

  lemma InsertApart(a: seq<Timer>, t: Timer, b: seq<Timer>)
    requires AllApart(a + b) && forall i | 0 <= i < |a + b| :: (a + b)[i].serial != t.serial && (a + b)[i].fire != t.fire
    ensures AllApart(a + [t] + b)
  {
    var all, more := a + b, a + [t] + b;
    forall i, j | 0 <= i < j < |more| ensures more[i].serial != more[j].serial && more[i].fire != more[j].fire {
      Insertion(a, t, b, i);
      Insertion(a, t, b, j);
    }
  }

  lemma InsertKnown(s: Board, a: seq<Timer>, t: Timer, b: seq<Timer>)
    requires Known(s, a + b) && OnceEach(s) && t.serial == s.nextSerial && t.fire < s.nextFire
    ensures Known(s.(nextSerial := s.nextSerial + 1), a + [t] + b) && OnceEach(s.(nextSerial := s.nextSerial + 1))
  {
    assert s.nextSerial !in s.warnings && s.nextSerial !in s.ends;
    var more, n := a + [t] + b, s.(nextSerial := s.nextSerial + 1);
    forall i | 0 <= i < |more|
      ensures more[i].serial < n.nextSerial && more[i].fire < n.nextFire
              && more[i].serial !in n.ends && (!more[i].warned ==> more[i].serial !in n.warnings) {
      Insertion(a, t, b, i);
    }
  }

  lemma InsertLoops(lib: Library, s: Board, a: seq<Timer>, t: Timer, b: seq<Timer>)
    requires LoopsRise(s, a + b) && LoopsBounded(lib, s, a + b)
    requires t.fire < |s.firings| && s.firings[t.fire].trigger == t.trigger
    requires forall k | 0 <= k < |s.restarts| && s.restarts[k].fire == t.fire :: s.restarts[k].loop <= t.loopCount
    ensures LoopsRise(s, a + [t] + b) && LoopsBounded(lib, s, a + [t] + b)
  {
    var more := a + [t] + b;
    forall i | 0 <= i < |more| ensures more[i].fire < |s.firings| && s.firings[more[i].fire].trigger == more[i].trigger {
      Insertion(a, t, b, i);
    }
    forall i, k | 0 <= i < |more| && 0 <= k < |s.restarts| && s.restarts[k].fire == more[i].fire
      ensures s.restarts[k].loop <= more[i].loopCount {
      Insertion(a, t, b, i);
    }
  }

  /** The timers and the queue with one more timer between them. */
  lemma InsertFacts(lib: Library, s: Board, b: Behavior, r: Request, queue: seq<Timer>)
    requires AllApart(s.timers + queue) && Known(s, s.timers + queue) && OnceEach(s)
    requires LoopsRise(s, s.timers + queue) && LoopsBounded(lib, s, s.timers + queue) && FreshRequest(s, s.timers + queue, r)
    ensures var p := Push(s, b, r);
            AllApart(p.timers + queue) && Known(p, p.timers + queue) && OnceEach(p)
            && LoopsRise(p, p.timers + queue) && LoopsBounded(lib, p, p.timers + queue)
  {
    var t := NewTimer(b, r, s.nextSerial);
    var all := s.timers + queue;
    assert forall i | 0 <= i < |all| :: all[i].serial != t.serial && all[i].fire != t.fire;
    hide AllApart;
    InsertApart(s.timers, t, queue);
    InsertKnown(s, s.timers, t, queue);
    InsertLoops(lib, s, s.timers, t, queue);
    hide Known, OnceEach, LoopsRise, LoopsBounded;
    PushFacts(lib, s, s.timers + [t], s.timers + [t] + queue);
  }

  lemma PushFacts(lib: Library, s: Board, ts: seq<Timer>, more: seq<Timer>)
    ensures var p := s.(timers := ts, nextSerial := s.nextSerial + 1); var q := s.(nextSerial := s.nextSerial + 1);
            (Known(q, more) ==> Known(p, more)) && (OnceEach(q) ==> OnceEach(p))
            && (LoopsRise(s, more) ==> LoopsRise(p, more)) && (LoopsBounded(lib, s, more) ==> LoopsBounded(lib, p, more))
  {}

  lemma PushKeeps(lib: Library, s: Board, b: Behavior, r: Request, queue: seq<Timer>)
    requires InvWith(lib, s, queue) && lib(r.trigger).timer == Some(b) && FreshRequest(s, s.timers + queue, r)
    requires b.mode.StartNew? || !Running(s.timers, r.trigger, if b.mode.RestartAll? || b.mode.IgnoreIfAnyRunning? then None else Some(r.name))
    ensures InvWith(lib, Push(s, b, r), queue)
  {
    hide AllCompatible, AllApart, Known, LoopsRise, LoopsBounded, OnceEach, FreshRequest, Running;
    NewIsCompatible(lib, s, b, r);
    InsertFacts(lib, s, b, r, queue);
  }

  lemma FreshAfterDrop(s: Board, some: seq<Timer>, queue: seq<Timer>, r: Request)
    requires Filtered(some, s.timers) && FreshRequest(s, s.timers + queue, r)
    ensures FreshRequest(s.(timers := some), some + queue, r)
  {
    FilteredWithQueue(some, s.timers, queue);
    var at: seq<nat> :| Picks(at, some + queue, s.timers + queue);
  }

  lemma StartKeeps(lib: Library, s: Board, b: Behavior, r: Request, queue: seq<Timer>)
    requires InvWith(lib, s, queue) && lib(r.trigger).timer == Some(b) && FreshRequest(s, s.timers + queue, r)
    ensures InvWith(lib, StartTimer(s, b, r), queue)
  {
    hide InvWith, FreshRequest, Running, Retained, Filtered, Push;
    if b.mode.RestartAll? || b.mode.RestartSameName? {
      var name := if b.mode.RestartAll? then None else Some(r.name);
      var kept := Retained(s.timers, r.trigger, name);
      RetainedFilters(s.timers, r.trigger, name);
      RetainedStops(s.timers, r.trigger, name);
      DropKeeps(lib, s, kept, queue);
      FreshAfterDrop(s, kept, queue, r);
      PushKeeps(lib, s.(timers := kept), b, r, queue);
    } else if StartTimer(s, b, r) != s {
      PushKeeps(lib, s, b, r, queue);
    }
  }

  lemma StartedKeeps(lib: Library, s: Board, trigger: nat, name: string, dynamic: Option<Millis>, now: Millis, loopCount: nat, fire: nat, queue: seq<Timer>)
    requires InvWith(lib, s, queue)
    requires FreshRequest(s, s.timers + queue, Request(trigger, name, 0, now, loopCount, fire))
    ensures InvWith(lib, Started(lib, s, trigger, name, dynamic, now, loopCount, fire), queue)
  {
    hide InvWith, StartTimer;
    if lib(trigger).timer.Some? {
      var b := lib(trigger).timer.value;
      var r := Request(trigger, name, if dynamic.Some? then dynamic.value else b.duration, now, loopCount, fire);
      assert FreshRequest(s, s.timers + queue, r);
      hide FreshRequest;
      StartKeeps(lib, s, b, r, queue);
    }
  }

  // ----- firing -----

  lemma AcceptedKeeps(lib: Library, s: Board, trigger: nat, now: Millis)
    requires Inv(lib, s) && !LockedOut(lib, s, trigger, now)
    ensures var open := Accepted(lib, s, trigger, now);
            Inv(lib, open) && FreshRequest(open, open.timers + [], Request(trigger, "", 0, now, 0, s.nextFire))
  {
    var open := Accepted(lib, s, trigger, now);
    assert forall i | 0 <= i < |s.firings| :: open.firings[i] == s.firings[i];
    hide AllCompatible, AllApart;
    assert Spaced(lib, open);
    assert LoopsRise(open, open.timers + []);
    assert LoopsBounded(lib, open, open.timers + []);
  }

  lemma FireKeeps(lib: Library, s: Board, trigger: nat, name: string, dynamic: Option<Millis>, now: Millis)
    requires Inv(lib, s)
    ensures Inv(lib, Fire(lib, s, trigger, name, dynamic, now))
  {
    if !LockedOut(lib, s, trigger, now) {
      hide InvWith, Started, Accepted, FreshRequest;
      AcceptedKeeps(lib, s, trigger, now);
      var open := Accepted(lib, s, trigger, now);
      SameRequest(open, open.timers + [], Request(trigger, "", 0, now, 0, s.nextFire), Request(trigger, name, 0, now, 0, s.nextFire));
      StartedKeeps(lib, open, trigger, name, dynamic, now, 0, s.nextFire, []);
    }
  }

  // ----- the clock -----

  /** Timer by timer equal up to the warned flag. */
  predicate SameButWarned(a: seq<Timer>, b: seq<Timer>) {
    |a| == |b| && forall i | 0 <= i < |a| :: b[i] == a[i].(warned := b[i].warned)
  }

  lemma WarnOneKeeps(lib: Library, s: Board, i: nat)
    requires Inv(lib, s) && i < |s.timers| && !s.timers[i].warned
    ensures Inv(lib, s.(timers := s.timers[i := s.timers[i].(warned := true)], warnings := s.warnings + [s.timers[i].serial]))
  {
    var t := s.timers[i];
    var w := s.(timers := s.timers[i := t.(warned := true)], warnings := s.warnings + [t.serial]);
    assert s.timers + [] == s.timers && w.timers + [] == w.timers;
    assert SameButWarned(s.timers, w.timers);
    WarnedApart(lib, s.timers, w.timers);
    hide AllCompatible, AllApart, Spaced;
    assert Known(w, w.timers);
    assert OnceEach(w);
    assert LoopsRise(w, w.timers);
    assert LoopsBounded(lib, w, w.timers);
    assert Spaced(lib, w) by { SpacedOnly(lib, s, w); }
  }

  lemma WarnedApart(lib: Library, a: seq<Timer>, b: seq<Timer>)
    requires SameButWarned(a, b) && AllCompatible(lib, a) && AllApart(a)
    ensures AllCompatible(lib, b) && AllApart(b)
  {
    hide SameName;
  }

  lemma SpacedOnly(lib: Library, s: Board, t: Board)
    requires Spaced(lib, s) && t.firings == s.firings && t.lockoutUntil == s.lockoutUntil
    ensures Spaced(lib, t)
  {}

  lemma {:induction false} WarnKeeps(lib: Library, s: Board, now: Millis, n: nat)
    requires Inv(lib, s) && n <= |s.timers|
    ensures Inv(lib, WarnUpTo(s, now, n))
  {
    if n > 0 {
      hide Inv;
      WarnKeeps(lib, s, now, n - 1);
      var w := WarnUpTo(s, now, n - 1);
      if WarningDue(w.timers[n - 1], now) { WarnOneKeeps(lib, w, n - 1); }
    }
  }

  /** Splitting the timers into those that go on and those that end loses none. */
  lemma {:induction false} DueFilters(ts: seq<Timer>, now: Millis, due: bool)
    ensures Filtered(Due(ts, now, due), ts)
    ensures forall i | 0 <= i < |Due(ts, now, due)| :: EndDue(Due(ts, now, due)[i], now) == due
  {
    if ts == [] {
      PicksAll(ts);
    } else {
      hide Filtered;
      var n := |ts| - 1;
      DueFilters(ts[..n], now, due);
      FilterGrows(Due(ts[..n], now, due), ts[..n], ts[n]);
      assert ts == ts[..n] + [ts[n]];
      assert Due(ts[..n], now, due) + [] == Due(ts[..n], now, due);
    }
  }

  lemma {:induction false} UnmatchedFilters(ts: seq<Timer>, matched: set<nat>, take: bool)
    ensures Filtered(Unmatched(ts, matched, take), ts)
    ensures forall i | 0 <= i < |Unmatched(ts, matched, take)| :: (Unmatched(ts, matched, take)[i].serial in matched) == take
  {
    if ts == [] {
      PicksAll(ts);
    } else {
      hide Filtered;
      var n := |ts| - 1;
      UnmatchedFilters(ts[..n], matched, take);
      FilterGrows(Unmatched(ts[..n], matched, take), ts[..n], ts[n]);
      assert ts == ts[..n] + [ts[n]];
      assert Unmatched(ts[..n], matched, take) + [] == Unmatched(ts[..n], matched, take);
    }
  }

  /** Two filters of one list that share no timer: their elements stay apart. */
  lemma SplitApart(a: seq<Timer>, b: seq<Timer>, ts: seq<Timer>)
    requires AllApart(ts) && Filtered(a, ts) && Filtered(b, ts)
    requires forall i, j | 0 <= i < |a| && 0 <= j < |b| :: a[i] != b[j]
    ensures AllApart(a + b)
  {
    var p: seq<nat> :| Picks(p, a, ts);
    var q: seq<nat> :| Picks(q, b, ts);
    forall i, j | 0 <= i < j < |a + b| ensures (a + b)[i].serial != (a + b)[j].serial && (a + b)[i].fire != (a + b)[j].fire {
      var x := if i < |a| then p[i] else q[i - |a|];
      var y := if j < |a| then p[j] else q[j - |a|];
      assert (a + b)[i] == ts[x] && (a + b)[j] == ts[y];
      assert x != y;
    }
  }

  lemma SplitMembers(lib: Library, s: Board, a: seq<Timer>, b: seq<Timer>)
    requires Filtered(a, s.timers) && Filtered(b, s.timers)
    requires Known(s, s.timers) && LoopsRise(s, s.timers) && LoopsBounded(lib, s, s.timers)
    ensures Known(s, a + b) && LoopsRise(s, a + b) && LoopsBounded(lib, s, a + b)
  {
    var p: seq<nat> :| Picks(p, a, s.timers);
    var q: seq<nat> :| Picks(q, b, s.timers);
    forall i | 0 <= i < |a + b| ensures (a + b)[i] == s.timers[if i < |a| then p[i] else q[i - |a|]] {}
  }

  lemma SplitKeeps(lib: Library, s: Board, a: seq<Timer>, b: seq<Timer>)
    requires Inv(lib, s) && Filtered(a, s.timers) && Filtered(b, s.timers)
    requires forall i, j | 0 <= i < |a| && 0 <= j < |b| :: a[i] != b[j]
    ensures InvWith(lib, s.(timers := a), b)
  {
    assert s.timers + [] == s.timers;
    hide Filtered, AllCompatible, AllApart, Known, LoopsRise, LoopsBounded, OnceEach, Spaced;
    FilteredFacts(lib, s, a, s.timers);
    SplitApart(a, b, s.timers);
    SplitMembers(lib, s, a, b);
    FactsIgnoreTimers(lib, s, a, a + b);
  }

  /** The head of the queue ends: it leaves the books for good. */
  lemma EndKeeps(lib: Library, s: Board, queue: seq<Timer>)
    requires InvWith(lib, s, queue) && queue != []
    ensures InvWith(lib, s.(ends := s.ends + [queue[0].serial]), queue[1..])
  {
    var t, rest := queue[0], queue[1..];
    var all, left := s.timers + queue, s.timers + rest;
    var e := s.(ends := s.ends + [t.serial]);
    var n := |s.timers|;
    assert all[n] == t;
    forall i | 0 <= i < |left| ensures left[i] == all[if i < n then i else i + 1] {}
    LeftApart(all, left, n);
    hide AllCompatible, AllApart;
    assert Known(e, left);
    assert OnceEach(e);
    assert LoopsRise(e, left);
    assert LoopsBounded(lib, e, left);
    assert Spaced(lib, e) by { SpacedOnly(lib, s, e); }
  }

  lemma LeftApart(all: seq<Timer>, left: seq<Timer>, n: nat)
    requires AllApart(all) && n < |all| && |left| == |all| - 1
    requires forall i | 0 <= i < |left| :: left[i] == all[if i < n then i else i + 1]
    ensures AllApart(left)
    ensures forall i | 0 <= i < |left| :: left[i].serial != all[n].serial && left[i].fire != all[n].fire
  {}

  /** A restart is one more loop of its own firing. */
  lemma RestartKeeps(lib: Library, s: Board, t: Timer, all: seq<Timer>)
    requires LoopsRise(s, all) && LoopsBounded(lib, s, all) && Loops(lib, t)
    requires t.fire < s.nextFire && t.fire < |s.firings| && s.firings[t.fire].trigger == t.trigger
    requires forall i | 0 <= i < |all| :: all[i].fire != t.fire
    requires forall k | 0 <= k < |s.restarts| && s.restarts[k].fire == t.fire :: s.restarts[k].loop <= t.loopCount
    ensures var r := s.(restarts := s.restarts + [Restart(t.fire, t.loopCount + 1)]);
            LoopsRise(r, all) && LoopsBounded(lib, r, all)
            && FreshRequest(r, all, Request(t.trigger, "", 0, 0, t.loopCount + 1, t.fire))
  {
    var r := s.(restarts := s.restarts + [Restart(t.fire, t.loopCount + 1)]);
    assert forall k | 0 <= k < |s.restarts| :: r.restarts[k] == s.restarts[k];
    assert r.restarts[|s.restarts|] == Restart(t.fire, t.loopCount + 1);
  }

  lemma HeadFacts(lib: Library, s: Board, queue: seq<Timer>)
    requires InvWith(lib, s, queue) && queue != []
    ensures var t := queue[0];
            t.fire < s.nextFire && t.fire < |s.firings| && s.firings[t.fire].trigger == t.trigger
            && (forall i | 0 <= i < |s.timers + queue[1..]| :: (s.timers + queue[1..])[i].fire != t.fire)
            && forall k | 0 <= k < |s.restarts| && s.restarts[k].fire == t.fire :: s.restarts[k].loop <= t.loopCount
  {
    var all, left := s.timers + queue, s.timers + queue[1..];
    assert all[|s.timers|] == queue[0];
    LeftApart(all, left, |s.timers|);
  }

  lemma EndOneKeeps(lib: Library, s: Board, queue: seq<Timer>, now: Millis, naming: Naming)
    requires InvWith(lib, s, queue) && queue != []
    ensures InvWith(lib, EndOne(lib, s, queue[0], now, naming), queue[1..])
  {
    hide AllCompatible, AllApart, Known, OnceEach, LoopsRise, LoopsBounded, Spaced, Started, FreshRequest;
    var t, rest := queue[0], queue[1..];
    EndKeeps(lib, s, queue);
    HeadFacts(lib, s, queue);
    if Loops(lib, t) {
      var e := s.(ends := s.ends + [t.serial]);
      var r := e.(restarts := e.restarts + [Restart(t.fire, t.loopCount + 1)]);
      RestartKeeps(lib, e, t, e.timers + rest);
      OthersIgnoreRestarts(lib, e, r, e.timers + rest);
      SameRequest(r, e.timers + rest, Request(t.trigger, "", 0, 0, t.loopCount + 1, t.fire),
                  Request(t.trigger, naming(t), 0, now, t.loopCount + 1, t.fire));
      StartedKeeps(lib, r, t.trigger, naming(t), None, now, t.loopCount + 1, t.fire, rest);
    }
  }

  lemma SameRequest(s: Board, all: seq<Timer>, a: Request, b: Request)
    requires FreshRequest(s, all, a) && a.trigger == b.trigger && a.fire == b.fire && a.loopCount == b.loopCount
    ensures FreshRequest(s, all, b)
  {}

  lemma OthersIgnoreRestarts(lib: Library, s: Board, t: Board, all: seq<Timer>)
    requires t == s.(restarts := t.restarts)
    ensures (Known(s, all) ==> Known(t, all)) && (OnceEach(s) ==> OnceEach(t)) && (Spaced(lib, s) ==> Spaced(lib, t))
  {}

  lemma {:induction false} EndAllKeeps(lib: Library, s: Board, queue: seq<Timer>, now: Millis, naming: Naming)
    requires InvWith(lib, s, queue)
    ensures Inv(lib, EndAll(lib, s, queue, now, naming))
    decreases |queue|
  {
    if queue != [] {
      hide InvWith, EndOne;
      EndOneKeeps(lib, s, queue, now, naming);
      EndAllKeeps(lib, EndOne(lib, s, queue[0], now, naming), queue[1..], now, naming);
    }
  }

  lemma AdvanceKeeps(lib: Library, s: Board, now: Millis, naming: Naming)
    requires Inv(lib, s)
    ensures Inv(lib, Advance(lib, s, now, naming))
  {
    hide Inv, InvWith, WarnUpTo, Due, EndAll;
    WarnKeeps(lib, s, now, |s.timers|);
    var w := WarnUpTo(s, now, |s.timers|);
    DueFilters(w.timers, now, false);
    DueFilters(w.timers, now, true);
    var on, off := Due(w.timers, now, false), Due(w.timers, now, true);
    assert forall i, j | 0 <= i < |on| && 0 <= j < |off| :: EndDue(on[i], now) != EndDue(off[j], now);
    SplitKeeps(lib, w, on, off);
    EndAllKeeps(lib, w.(timers := on), off, now, naming);
  }

  /** Ending a whole queue without restarts. */
  lemma {:induction false} EndQueueKeeps(lib: Library, s: Board, queue: seq<Timer>)
    requires InvWith(lib, s, queue)
    ensures Inv(lib, s.(ends := s.ends + Serials(queue)))
    decreases |queue|
  {
    if queue == [] {
      assert s.ends + Serials(queue) == s.ends;
    } else {
      hide InvWith;
      EndKeeps(lib, s, queue);
      var e := s.(ends := s.ends + [queue[0].serial]);
      EndQueueKeeps(lib, e, queue[1..]);
      assert Serials(queue) == [queue[0].serial] + Serials(queue[1..]);
      assert e.ends + Serials(queue[1..]) == s.ends + Serials(queue);
    }
  }

  lemma EndEarlyKeeps(lib: Library, s: Board, matched: set<nat>)
    requires Inv(lib, s)
    ensures Inv(lib, EndEarly(s, matched))
  {
    hide Inv, InvWith, Unmatched;
    UnmatchedFilters(s.timers, matched, false);
    UnmatchedFilters(s.timers, matched, true);
    var on, off := Unmatched(s.timers, matched, false), Unmatched(s.timers, matched, true);
    assert forall i, j | 0 <= i < |on| && 0 <= j < |off| :: on[i] != off[j];
    SplitKeeps(lib, s, on, off);
    EndQueueKeeps(lib, s.(timers := on), off);
  }

  lemma StepKeeps(lib: Library, s: Board, step: Step)
    requires Inv(lib, s)
    ensures Inv(lib, StepOnce(lib, s, step))
  {
    hide Inv, Fire, Advance, EndEarly;
    match step
    case Fired(trigger, name, dynamic, now) => FireKeeps(lib, s, trigger, name, dynamic, now);
    case Advanced(now, naming) => AdvanceKeeps(lib, s, now, naming);
    case LineEnded(matched) => EndEarlyKeeps(lib, s, matched);
  }

  lemma {:induction false} InvOverRuns(lib: Library, steps: seq<Step>)
    ensures Inv(lib, Run(lib, steps))
  {
    hide Inv, StepOnce;
    if steps == [] {
      EmptyHolds(lib);
    } else {
      InvOverRuns(lib, steps[..|steps| - 1]);
      StepKeeps(lib, Run(lib, steps[..|steps| - 1]), steps[|steps| - 1]);
    }
  }

  lemma EmptyHolds(lib: Library)
    ensures Inv(lib, EMPTY_BOARD)
  {}

  // ----- what that means -----

  /** At most one live timer per trigger, or per trigger and folded name, under the
      restart modes that promise it. */
  lemma RestartModesHold(lib: Library, steps: seq<Step>, i: nat, j: nat)
    requires i < j < |Run(lib, steps).timers|
    ensures Compatible(lib, Run(lib, steps).timers[i], Run(lib, steps).timers[j])
  {
    hide Compatible;
    InvOverRuns(lib, steps);
  }

  /** No timer is warned about twice or ended twice, and none that has ended is running. */
  lemma WarnsAndEndsOnce(lib: Library, steps: seq<Step>)
    ensures var s := Run(lib, steps);
            Distinct(s.warnings) && Distinct(s.ends) && forall i | 0 <= i < |s.timers| :: s.timers[i].serial !in s.ends
  {
    InvOverRuns(lib, steps);
    var s := Run(lib, steps);
    assert s.timers + [] == s.timers;
  }

  /** Accepted firings of a locked-out trigger are pairwise more than the lockout apart. */
  lemma FiringsAreSpaced(lib: Library, steps: seq<Step>, i: nat, j: nat)
    requires i < j < |Run(lib, steps).firings| && Run(lib, steps).firings[i].trigger == Run(lib, steps).firings[j].trigger
    requires lib(Run(lib, steps).firings[i].trigger).lockout > 0
    ensures var s := Run(lib, steps);
            s.firings[j].at > s.firings[i].at + lib(s.firings[i].trigger).lockout
  { InvOverRuns(lib, steps); }

  function CountRestarts(restarts: seq<Restart>, fire: nat): nat {
    if restarts == [] then 0
    else CountRestarts(restarts[..|restarts| - 1], fire) + (if restarts[|restarts| - 1].fire == fire then 1 else 0)
  }

  lemma {:induction false} RisingCount(restarts: seq<Restart>, fire: nat, top: nat)
    requires forall i, j | 0 <= i < j < |restarts| && restarts[i].fire == restarts[j].fire :: restarts[i].loop < restarts[j].loop
    requires forall i | 0 <= i < |restarts| && restarts[i].fire == fire :: 1 <= restarts[i].loop <= top
    ensures CountRestarts(restarts, fire) <= top
  {
    if restarts != [] {
      var n := |restarts| - 1;
      assert forall i | 0 <= i < n :: restarts[..n][i] == restarts[i];
      if restarts[n].fire == fire {
        forall i | 0 <= i < n && restarts[..n][i].fire == fire ensures 1 <= restarts[..n][i].loop <= restarts[n].loop - 1 {
          assert restarts[i].loop < restarts[n].loop;
        }
        RisingCount(restarts[..n], fire, restarts[n].loop - 1);
      } else {
        RisingCount(restarts[..n], fire, top);
      }
    }
  }

  /** One firing causes at most `times_to_loop` restarts, and none unless its timer loops. */
  lemma LoopingIsBounded(lib: Library, steps: seq<Step>, fire: nat)
    requires fire < |Run(lib, steps).firings|
    ensures CountRestarts(Run(lib, steps).restarts, fire) <= MaxLoops(lib, Run(lib, steps).firings[fire].trigger)
  {
    InvOverRuns(lib, steps);
    var s := Run(lib, steps);
    RisingCount(s.restarts, fire, MaxLoops(lib, s.firings[fire].trigger));
  }
}
