/** The versioned identity reader: a seqlock read against a writer in another process.
    crates/stonemite/src/trusik_shm.rs. Shared memory is its whole history, one state per
    moment; the reader sees each access at the moment an arbitrary clock gives it. */
module IdentityReader {
  import opened Foundations

  type Byte = x: int | 0 <= x < 256
  type Generation = x: int | 0 <= x < 0x1_0000_0000
  const GENERATIONS: int := 0x1_0000_0000
  const FIELD_LENGTH: nat := 64
  const MAGIC: nat := 0x53544D43
  const ATTEMPTS: nat := 8

  type Field = s: seq<Byte> | |s| == 64 witness seq(64, i => 0)

  datatype Memory = Memory(character: Field, server: Field, generation: Generation)

  predicate Even(m: Memory) { m.generation % 2 == 0 }

  /** The writer makes the generation odd before and even after replacing the fields;
      while it is odd it may change any bytes. */
  predicate WriterStep(a: Memory, b: Memory) {
    a == b
    || (b.generation == (a.generation + 1) % GENERATIONS && b.character == a.character && b.server == a.server)
    || (!Even(a) && b.generation == a.generation)
  }

  ghost predicate History(trace: seq<Memory>) {
    trace != [] && forall i | 0 <= i < |trace| - 1 :: WriterStep(trace[i], trace[i + 1])
  }

  /** How often the generation moves from moment a to moment b. */
  ghost function Increments(trace: seq<Memory>, a: nat, b: nat): nat
    requires a <= b < |trace|
    decreases b
  {
    if a == b then 0
    else Increments(trace, a, b - 1) + (if trace[b - 1].generation != trace[b].generation then 1 else 0)
  }

  /** The bytes before the first zero. */
  function Text(f: seq<Byte>): seq<Byte> { if f == [] || f[0] == 0 then [] else [f[0]] + Text(f[1..]) }

  // ----- what the writer cannot do -----

  lemma {:induction false} GenerationCounts(trace: seq<Memory>, a: nat, b: nat)
    requires History(trace) && a <= b < |trace|
    ensures trace[b].generation == (trace[a].generation + Increments(trace, a, b)) % GENERATIONS
    decreases b
  {
    if a < b {
      GenerationCounts(trace, a, b - 1);
      assert WriterStep(trace[b - 1], trace[b - 1 + 1]);
      OneMore(trace[a].generation + Increments(trace, a, b - 1));
    }
  }

  lemma OneMore(n: nat)
    ensures (n % GENERATIONS + 1) % GENERATIONS == (n + 1) % GENERATIONS != n % GENERATIONS
  {}

  lemma {:induction false} IncrementsSplit(trace: seq<Memory>, a: nat, m: nat, b: nat)
    requires a <= m <= b < |trace|
    ensures Increments(trace, a, b) == Increments(trace, a, m) + Increments(trace, m, b)
    decreases b
  { if m < b { IncrementsSplit(trace, a, m, b - 1); } }

  lemma {:induction false} NoIncrementsNoChange(trace: seq<Memory>, a: nat, b: nat, t: nat)
    requires History(trace) && a <= t <= b < |trace| && Even(trace[a]) && Increments(trace, a, b) == 0
    ensures trace[t].character == trace[a].character && trace[t].server == trace[a].server
    ensures trace[t].generation == trace[a].generation
    decreases t
  {
    if a < t {
      NoIncrementsNoChange(trace, a, b, t - 1);
      IncrementsSplit(trace, a, t, b);
      assert WriterStep(trace[t - 1], trace[t - 1 + 1]);
    }
  }

  /** Equal even generations around a window without a full wrap: nothing moved in it. */
  lemma StableWindow(trace: seq<Memory>, a: nat, b: nat, t: nat)
    requires History(trace) && a <= t <= b < |trace| && Even(trace[a]) && trace[a].generation == trace[b].generation
    requires Increments(trace, a, b) < GENERATIONS
    ensures trace[t].character == trace[a].character && trace[t].server == trace[a].server
  {
    GenerationCounts(trace, a, b);
    NoIncrementsNoChange(trace, a, b, t);
  }

  // ----- the reader -----

  /** The moment of each access, never going back. */
  ghost predicate Clock(clock: nat -> nat, trace: seq<Memory>) {
    (forall i: nat :: clock(i) < |trace|) && forall i: nat, j: nat | i <= j :: clock(i) <= clock(j)
  }

  /** The generation does not wrap within one attempt of at most 130 accesses. */
  ghost predicate NoWrap(clock: nat -> nat, trace: seq<Memory>)
    requires Clock(clock, trace)
  { forall i: nat, j: nat | i <= j < i + 2 + 2 * FIELD_LENGTH :: Increments(trace, clock(i), clock(j)) < GENERATIONS }

  function FieldOf(m: Memory, server: bool): Field { if server then m.server else m.character }

  lemma {:induction false} TextGrows(f: seq<Byte>, n: nat)
    requires n <= |f| && forall i | 0 <= i < n :: f[i] != 0
    ensures n < |f| && f[n] == 0 ==> Text(f) == f[..n]
    ensures n == |f| ==> Text(f) == f
  {
    if n > 0 {
      TextGrows(f[1..], n - 1);
      assert f == [f[0]] + f[1..];
      if n < |f| { assert f[..n] == [f[0]] + f[1..][..n - 1]; }
    }
  }

  /** `read_null_terminated_volatile`: byte by byte, each at its own moment. If the field
      looked the same at every access, the result is its text. */
  method ReadField(trace: seq<Memory>, clock: nat -> nat, at: nat, server: bool, ghost f: Field) returns (bytes: seq<Byte>, next: nat)
    requires Clock(clock, trace)
    ensures at <= next <= at + FIELD_LENGTH
    ensures (forall i | at <= i < next :: FieldOf(trace[clock(i)], server) == f) ==> bytes == Text(f)
  {
    bytes, next := [], at;
    for index := 0 to FIELD_LENGTH
      invariant next == at + index && |bytes| == index
      invariant (forall i | at <= i < next :: FieldOf(trace[clock(i)], server) == f) ==> bytes == f[..index]
      invariant forall i | 0 <= i < index :: bytes[i] != 0
    {
      var byte := FieldOf(trace[clock(next)], server)[index];
      next := next + 1;
      if byte == 0 {
        if forall i | at <= i < next :: FieldOf(trace[clock(i)], server) == f {
          assert FieldOf(trace[clock(next - 1)], server) == f;
          assert forall i | 0 <= i < index :: f[i] == bytes[i];
          TextGrows(f, index);
        }
        return;
      }
      bytes := bytes + [byte];
    }
    if forall i | at <= i < next :: FieldOf(trace[clock(i)], server) == f {
      assert f[..64] == f;
      assert forall i | 0 <= i < 64 :: f[i] == bytes[i];
      TextGrows(f, 64);
    }
  }

  /** The pair was published together at some moment of the history. */
  ghost predicate FromOnePublication(trace: seq<Memory>, pair: (seq<Byte>, seq<Byte>)) {
    exists t :: 0 <= t < |trace| && Even(trace[t]) && pair.0 == Text(trace[t].character) && pair.1 == Text(trace[t].server)
  }

  /** One attempt; None when the generation was odd or moved. */
  method Attempt(trace: seq<Memory>, clock: nat -> nat, at: nat) returns (pair: Option<(seq<Byte>, seq<Byte>)>, next: nat)
    requires History(trace) && Clock(clock, trace) && NoWrap(clock, trace)
    ensures at < next <= at + 2 + 2 * FIELD_LENGTH
    ensures pair.Some? ==> FromOnePublication(trace, pair.value)
    ensures pair.None? ==> !Even(trace[clock(at)]) || trace[clock(at)].generation != trace[clock(next - 1)].generation
  {
    var before := trace[clock(at)].generation;
    if before % 2 != 0 { return None, at + 1; }
    ghost var seen := trace[clock(at)];
    var character, n := ReadField(trace, clock, at + 1, false, seen.character);
    var server, m := ReadField(trace, clock, n, true, seen.server);
    var after := trace[clock(m)].generation;
    next := m + 1;
    if before == after && after % 2 == 0 {
      forall i | at <= i <= m ensures trace[clock(i)].character == seen.character && trace[clock(i)].server == seen.server {
        StableWindow(trace, clock(at), clock(m), clock(i));
      }
      assert Even(trace[clock(at)]);
      return Some((character, server)), next;
    }
    return None, next;
  }

  /** `read_versioned_identity`: whatever the interleaving, a
      returned pair comes from one single publication, and a quiet even memory is read
      at the first attempt. */
  method ReadIdentity(magic: nat, pid: nat, expectedPid: nat, trace: seq<Memory>, clock: nat -> nat) returns (r: Option<(seq<Byte>, seq<Byte>)>)
    requires History(trace) && Clock(clock, trace) && NoWrap(clock, trace)
    ensures r.Some? ==> FromOnePublication(trace, r.value) && r.value.0 != []
    ensures magic != MAGIC || pid != expectedPid ==> r == None
    ensures magic == MAGIC && pid == expectedPid
            && (forall t | 0 <= t < |trace| :: trace[t] == trace[0]) && Even(trace[0]) ==>
              r == if Text(trace[0].character) == [] then None else Some((Text(trace[0].character), Text(trace[0].server)))
  {
    if magic != MAGIC || pid != expectedPid { return None; }
    var at := 0;
    for attempt := 0 to ATTEMPTS
      invariant (forall t | 0 <= t < |trace| :: trace[t] == trace[0]) && Even(trace[0]) ==> attempt == 0
    {
      var pair, next := Attempt(trace, clock, at);
      if pair.Some? {
        return if pair.value.0 == [] then None else pair;
      }
      at := next;
    }
    r := None;
  }
}
