/** One target's keys and the timed press/release sequence of one input.
    crates/stonemite/src/broadcast.rs, targeted input; crates/stonemite/src/control.rs,
    `phase_scans`, `complete_stroke` and the key part of `advance_one_input`. */
module KeySequencer {
  import opened Foundations

  /** A DirectInput keyboard offset: a byte. */
  type Scan = x: int | 0 <= x < 256

  const MODIFIER_DELAY: nat := 30
  const RELEASE_DELAY: nat := 100
  const ACTIVATION_DELAY: nat := 200

  // ----- the keys of one target -----

  /** The two key sources and what the target process reads, as sets of pressed keys. */
  datatype KeyTarget = KeyTarget(broadcast: set<Scan>, targeted: set<Scan>, shared: set<Scan>, active: bool)

  const NEW_TARGET := KeyTarget({}, {}, {}, false)

  predicate ValidScan(scan: Scan) { scan != 0 && scan != 255 }

  /** `write_combined_key`. */
  function WriteKey(k: KeyTarget, scan: Scan): KeyTarget {
    k.(shared := if scan in k.broadcast || scan in k.targeted then k.shared + {scan} else k.shared - {scan})
  }

  /** `set_targeted_key`; None is its error. */
  function SetTargeted(k: KeyTarget, scan: Scan, pressed: bool): Option<KeyTarget> {
    if !ValidScan(scan) || !k.active then None
    else Some(WriteKey(k.(targeted := if pressed then k.targeted + {scan} else k.targeted - {scan}), scan))
  }

  function SetBroadcast(k: KeyTarget, scan: Scan, pressed: bool): KeyTarget {
    WriteKey(k.(broadcast := if pressed then k.broadcast + {scan} else k.broadcast - {scan}), scan)
  }

  /** Offsets below n of the targeted source are released, one by one. */
  function ReleaseTargeted(k: KeyTarget, n: nat): KeyTarget
    requires n <= 255
  {
    if n == 0 then k
    else
      var r := ReleaseTargeted(k, n - 1);
      if n - 1 in r.targeted then WriteKey(r.(targeted := r.targeted - {n - 1}), n - 1) else r
  }

  /** `finish_targeted_input`. */
  function FinishTargeted(k: KeyTarget): KeyTarget { ReleaseTargeted(k, 255).(active := false) }

  function ClearBroadcast(k: KeyTarget, n: nat): KeyTarget
    requires n <= 255
  {
    if n == 0 then k else
      var r := ClearBroadcast(k, n - 1);
      WriteKey(r.(broadcast := r.broadcast - {n - 1}), n - 1)
  }

  /** The shared key is the OR of both sources, and offset 255 is never touched. */
  ghost predicate Combined(k: KeyTarget) {
    k.shared == k.broadcast + k.targeted && 255 !in k.broadcast && 255 !in k.targeted
  }

  lemma SettingKeepsCombined(k: KeyTarget, scan: Scan, pressed: bool)
    requires Combined(k)
    ensures SetTargeted(k, scan, pressed).Some? ==> Combined(SetTargeted(k, scan, pressed).value)
    ensures scan != 255 ==> Combined(SetBroadcast(k, scan, pressed))
  {}

  lemma {:induction false} ReleaseKeepsCombined(k: KeyTarget, n: nat)
    requires n <= 255 && Combined(k)
    ensures var r := ReleaseTargeted(k, n);
            Combined(r) && r.broadcast == k.broadcast && r.active == k.active
            && forall x: Scan :: x in r.targeted <==> x in k.targeted && x >= n
  { if n > 0 { ReleaseKeepsCombined(k, n - 1); } }

  /** Any exit leaves every targeted key up, and the broadcast source as it was. */
  lemma FinishLeavesKeysUp(k: KeyTarget)
    requires Combined(k)
    ensures FinishTargeted(k) == KeyTarget(k.broadcast, {}, k.broadcast, false)
  {
    hide ReleaseTargeted;
    ReleaseKeepsCombined(k, 255);
    var r := ReleaseTargeted(k, 255);
    assert forall x: Scan :: x !in r.targeted;
    assert r.targeted == {};
    assert r.shared == k.broadcast;
  }

  lemma {:induction false} ClearKeepsCombined(k: KeyTarget, n: nat)
    requires n <= 255 && Combined(k)
    ensures var r := ClearBroadcast(k, n);
            Combined(r) && r.targeted == k.targeted && r.active == k.active
            && forall x: Scan :: x in r.broadcast <==> x in k.broadcast && x >= n
  { if n > 0 { ClearKeepsCombined(k, n - 1); } }

  // ----- strokes -----

  datatype Stroke = Stroke(scans: seq<Scan>, hold: nat, pause: nat)
  datatype InputPhase = Press | PressChord | Release | ReleaseModifiers | Finish

  predicate IsModifier(scan: Scan) {
    scan == 0x1d || scan == 0x2a || scan == 0x36 || scan == 0x38 || scan == 0x9d || scan == 0xb8
  }

  /** `has_modifier_chord`. */
  predicate Chord(s: Stroke) {
    (exists i :: 0 <= i < |s.scans| && IsModifier(s.scans[i])) && (exists i :: 0 <= i < |s.scans| && !IsModifier(s.scans[i]))
  }

  function Only(scans: seq<Scan>, modifiers: bool): seq<Scan> {
    if scans == [] then []
    else (if IsModifier(scans[0]) == modifiers then [scans[0]] else []) + Only(scans[1..], modifiers)
  }

  function Reverse(scans: seq<Scan>): seq<Scan> { if scans == [] then [] else Reverse(scans[1..]) + [scans[0]] }

  /** `phase_scans`. */
  function PhaseScans(s: Stroke, phase: InputPhase): seq<Scan> {
    match phase
    case Press => if Chord(s) then Only(s.scans, true) else s.scans
    case PressChord => Only(s.scans, false)
    case Release => if Chord(s) then Only(Reverse(s.scans), false) else Reverse(s.scans)
    case ReleaseModifiers => Only(Reverse(s.scans), true)
    case Finish => []
  }

  function Keys(scans: seq<Scan>): set<Scan> { set x | x in scans }
  function Modifiers(s: Stroke): set<Scan> { set x | x in s.scans && IsModifier(x) }
  function Primaries(s: Stroke): set<Scan> { set x | x in s.scans && !IsModifier(x) }

  lemma {:induction false} OnlyKeys(scans: seq<Scan>, modifiers: bool)
    ensures forall x :: x in Only(scans, modifiers) <==> x in scans && IsModifier(x) == modifiers
  { if scans != [] { OnlyKeys(scans[1..], modifiers); } }

  lemma {:induction false} ReverseKeys(scans: seq<Scan>)
    ensures forall x :: x in Reverse(scans) <==> x in scans
  {
    if scans != [] {
      ReverseKeys(scans[1..]);
      assert scans == [scans[0]] + scans[1..];
    }
  }

  // ----- one sequence -----

  datatype Sequence = Sequence(strokes: seq<Stroke>, index: nat, phase: InputPhase, nextStep: nat)

  predicate WellFormed(q: Sequence) {
    q.index < |q.strokes| && ((q.phase.PressChord? || q.phase.ReleaseModifiers?) ==> Chord(q.strokes[q.index]))
  }

  /** Commands are checked to hold at least one stroke before anything starts. */
  type Strokes = s: seq<Stroke> | s != [] witness [Stroke([], 0, 0)]

  type Running = q: Sequence | WellFormed(q) witness Sequence([Stroke([], 0, 0)], 0, Press, 0)

  function Begin(strokes: Strokes, now: nat): Running { Sequence(strokes, 0, Press, now + ACTIVATION_DELAY) }

  /** The keys held while the sequence waits in this phase: fixed by stroke and phase. */
  function HeldAt(q: Running): set<Scan>
  {
    match q.phase
    case Press => {}
    case PressChord => Modifiers(q.strokes[q.index])
    case Release => Keys(q.strokes[q.index].scans)
    case ReleaseModifiers => Modifiers(q.strokes[q.index])
    case Finish => {}
  }

  /** In a chord a primary key is only ever down while all modifiers are. */
  lemma ModifiersBracketPrimary(q: Running, x: Scan)
    requires x in HeldAt(q) && !IsModifier(x)
    ensures Modifiers(q.strokes[q.index]) <= HeldAt(q)
  {}

  predicate Presses(phase: InputPhase) { phase.Press? || phase.PressChord? }

  /** The phase loop over `set_targeted_key`; None is its early exit. */
  function SetAll(k: KeyTarget, scans: seq<Scan>, pressed: bool): Option<KeyTarget>
    decreases |scans|
  {
    if scans == [] then Some(k)
    else match SetTargeted(k, scans[0], pressed)
      case None => None
      case Some(n) => SetAll(n, scans[1..], pressed)
  }

  /** `complete_stroke`. */
  function CompleteStroke(q: Sequence, now: nat): Sequence
    requires q.index < |q.strokes|
  {
    if q.index + 1 == |q.strokes| then q.(phase := Finish, nextStep := now + RELEASE_DELAY)
    else q.(index := q.index + 1, phase := Press, nextStep := now + q.strokes[q.index].pause)
  }

  /** Where the sequence stands after a due step. */
  function NextPhase(q: Running, now: nat): Running
  {
    var s := q.strokes[q.index];
    match q.phase
    case Press => if Chord(s) then q.(phase := PressChord, nextStep := now + MODIFIER_DELAY)
                  else q.(phase := Release, nextStep := now + s.hold)
    case PressChord => q.(phase := Release, nextStep := now + s.hold)
    case Release => if Chord(s) then q.(phase := ReleaseModifiers, nextStep := now + MODIFIER_DELAY) else CompleteStroke(q, now)
    case ReleaseModifiers => CompleteStroke(q, now)
    case Finish => q
  }

  lemma {:induction false} SetAllKeys(k: KeyTarget, scans: seq<Scan>, pressed: bool)
    requires Combined(k) && k.active
    ensures SetAll(k, scans, pressed).Some? <==> forall x | x in scans :: ValidScan(x)
    ensures SetAll(k, scans, pressed).Some? ==>
              var r := SetAll(k, scans, pressed).value;
              Combined(r) && r.active && r.broadcast == k.broadcast
              && r.targeted == if pressed then k.targeted + Keys(scans) else k.targeted - Keys(scans)
    decreases |scans|
  {
    if scans != [] {
      SettingKeepsCombined(k, scans[0], pressed);
      var n := SetTargeted(k, scans[0], pressed);
      assert forall x :: x in scans <==> x == scans[0] || x in scans[1..];
      if n.Some? {
        assert n.value.active && n.value.broadcast == k.broadcast;
        SetAllKeys(n.value, scans[1..], pressed);
      }
    }
  }

  lemma PhaseKeys(s: Stroke, phase: InputPhase)
    requires (phase.PressChord? || phase.ReleaseModifiers?) ==> Chord(s)
    ensures Keys(PhaseScans(s, phase)) ==
              match phase
              case Press => if Chord(s) then Modifiers(s) else Keys(s.scans)
              case PressChord => Primaries(s)
              case Release => if Chord(s) then Primaries(s) else Keys(s.scans)
              case ReleaseModifiers => Modifiers(s)
              case Finish => {}
  {
    hide Chord;
    OnlyKeys(s.scans, true); OnlyKeys(s.scans, false);
    ReverseKeys(s.scans);
    OnlyKeys(Reverse(s.scans), true); OnlyKeys(Reverse(s.scans), false);
  }

  lemma KeysSplit(s: Stroke)
    ensures Modifiers(s) + Primaries(s) == Keys(s.scans)
    ensures Keys(s.scans) - Primaries(s) == Modifiers(s)
    ensures Modifiers(s) - Modifiers(s) == {} && Keys(s.scans) - Keys(s.scans) == {}
  {}

  /** A due step takes the held keys exactly from one phase's set to the next one's. */
  lemma StepHoldsExactly(k: KeyTarget, q: Running, now: nat)
    requires !q.phase.Finish? && Combined(k) && k.active && k.targeted == HeldAt(q)
    ensures var r := SetAll(k, PhaseScans(q.strokes[q.index], q.phase), Presses(q.phase));
            r.Some? ==> Combined(r.value) && r.value.active && r.value.broadcast == k.broadcast
                        && r.value.targeted == HeldAt(NextPhase(q, now))
  {
    hide PhaseScans, SetAll;
    var s := q.strokes[q.index];
    SetAllKeys(k, PhaseScans(s, q.phase), Presses(q.phase));
    PhaseKeys(s, q.phase);
    KeysSplit(s);
  }

  // ----- progress -----

  function Length(s: Stroke): nat { if Chord(s) then 4 else 2 }

  function TotalLength(strokes: seq<Stroke>): nat {
    if strokes == [] then 0 else Length(strokes[0]) + TotalLength(strokes[1..])
  }

  /** Due steps left before the sequence reaches Finish. */
  function StepsLeft(q: Running): nat
  {
    var s := q.strokes[q.index];
    match q.phase
    case Press => Length(s) + TotalLength(q.strokes[q.index + 1..])
    case PressChord => 3 + TotalLength(q.strokes[q.index + 1..])
    case Release => Length(s) / 2 + TotalLength(q.strokes[q.index + 1..])
    case ReleaseModifiers => 1 + TotalLength(q.strokes[q.index + 1..])
    case Finish => 0
  }

  lemma {:induction false} TotalAtMostFour(strokes: seq<Stroke>)
    ensures TotalLength(strokes) <= 4 * |strokes|
  { if strokes != [] { TotalAtMostFour(strokes[1..]); } }

  /** Every due step brings Finish nearer by exactly one. */
  lemma StepCounts(q: Running, now: nat)
    requires !q.phase.Finish?
    ensures StepsLeft(NextPhase(q, now)) == StepsLeft(q) - 1
  {
    hide Chord;
    var n := NextPhase(q, now);
    if n.index == q.index + 1 {
      var rest := q.strokes[q.index + 1..];
      assert rest[0] == q.strokes[q.index + 1] && rest[1..] == q.strokes[q.index + 2..];
    } else if n.phase.Finish? {
      assert q.strokes[q.index + 1..] == [];
    }
  }

  /** The sequence after a list of due steps at the given times. */
  function After(q: Running, times: seq<nat>): Running
    decreases |times|
  {
    if times == [] then q
    else
      After(NextPhase(q, times[0]), times[1..])
  }

  /** From the start, Finish comes after exactly StepsLeft due steps, which is at most
      four for every stroke, and never earlier. */
  lemma {:induction false} FinishInTime(q: Running, times: seq<nat>)
    ensures After(q, times).phase.Finish? <==> |times| >= StepsLeft(q)
    decreases |times|
  {
    if times == [] {
      AtLeastOne(q);
    } else if q.phase.Finish? {
      assert NextPhase(q, times[0]) == q;
      FinishInTime(q, times[1..]);
    } else {
      StepCounts(q, times[0]);
      FinishInTime(NextPhase(q, times[0]), times[1..]);
    }
  }

  lemma AtLeastOne(q: Running)
    ensures StepsLeft(q) == 0 <==> q.phase.Finish?
  {}

  lemma FourStepsPerStroke(strokes: Strokes, now: nat, times: seq<nat>)
    requires |times| >= 4 * |strokes|
    ensures After(Begin(strokes, now), times).phase.Finish?
  {
    TotalAtMostFour(strokes);
    assert strokes[0..] == strokes && strokes[1..] == strokes[0 + 1..];
    FinishInTime(Begin(strokes, now), times);
  }
}
