/** The pet marks and the source quality of a row: they follow the order of the facts, and
    this is exactly when that order matters. */
module RowMarks {
  import opened Foundations
  import opened CombatModel
  import opened Metrics
  import opened Election
  import opened Standings

  /** Either all of the key's credits are those of an unclaimed pet or none is. */
  ghost predicate OneKind(k: Key, cs: seq<Credit>) {
    forall i, j | 0 <= i < |cs| && 0 <= j < |cs| && KeyOf(cs[i]) == k && KeyOf(cs[j]) == k ::
      cs[i].via.UnclaimedPet? == cs[j].via.UnclaimedPet?
  }

  ghost predicate Has(k: Key, via: Via, cs: seq<Credit>) { exists i :: 0 <= i < |cs| && KeyOf(cs[i]) == k && cs[i].via == via }

  lemma HasPush(k: Key, via: Via, cs: seq<Credit>)
    requires cs != []
    ensures Has(k, via, cs) <==> Has(k, via, cs[..|cs| - 1]) || (KeyOf(cs[|cs| - 1]) == k && cs[|cs| - 1].via == via)
  { assert forall i | 0 <= i < |cs| - 1 :: cs[..|cs| - 1][i] == cs[i]; }

  lemma OneKindBefore(k: Key, cs: seq<Credit>)
    requires cs != [] && OneKind(k, cs)
    ensures OneKind(k, cs[..|cs| - 1])
    ensures KeyOf(cs[|cs| - 1]) == k && Occurs(cs[..|cs| - 1], k) ==>
              (Has(k, UnclaimedPet, cs[..|cs| - 1]) <==> cs[|cs| - 1].via.UnclaimedPet?)
    ensures KeyOf(cs[|cs| - 1]) == k && cs[|cs| - 1].via.UnclaimedPet? ==> !Has(k, OwnedPet, cs[..|cs| - 1])
  { assert forall i | 0 <= i < |cs| - 1 :: cs[..|cs| - 1][i] == cs[i]; }

  /** With credits of one kind the marks say which kinds there are. */
  lemma {:induction false} MarksOfOneKind(k: Key, cs: seq<Credit>)
    requires OneKind(k, cs)
    ensures StartsUnclaimed(k, cs) <==> Has(k, UnclaimedPet, cs)
    ensures EndsOwned(k, cs) <==> Has(k, OwnedPet, cs)
  {
    if cs != [] {
      hide StartsUnclaimed, EndsOwned, Has, OneKind;
      OneKindBefore(k, cs);
      MarksOfOneKind(k, cs[..|cs| - 1]);
      StartsPush(k, cs);
      EndsPush(k, cs);
      HasPush(k, UnclaimedPet, cs);
      HasPush(k, OwnedPet, cs);
      HasOccurs(k, UnclaimedPet, cs[..|cs| - 1]);
    }
  }

  lemma HasOccurs(k: Key, via: Via, cs: seq<Credit>)
    ensures Has(k, via, cs) ==> Occurs(cs, k)
  {}

  lemma HasOrderFree(k: Key, via: Via, cs: seq<Credit>, ds: seq<Credit>)
    requires multiset(cs) == multiset(ds) && Has(k, via, cs)
    ensures Has(k, via, ds)
  {
    var i :| 0 <= i < |cs| && KeyOf(cs[i]) == k && cs[i].via == via;
    assert cs[i] in multiset(ds);
    var j :| 0 <= j < |ds| && ds[j] == cs[i];
  }

  lemma OneKindOrderFree(k: Key, cs: seq<Credit>, ds: seq<Credit>)
    requires multiset(cs) == multiset(ds) && OneKind(k, cs)
    ensures OneKind(k, ds)
  {
    forall i, j | 0 <= i < |ds| && 0 <= j < |ds| && KeyOf(ds[i]) == k && KeyOf(ds[j]) == k
      ensures ds[i].via.UnclaimedPet? == ds[j].via.UnclaimedPet? {
      assert ds[i] in multiset(cs) && ds[j] in multiset(cs);
      var i' :| 0 <= i' < |cs| && cs[i'] == ds[i];
      var j' :| 0 <= j' < |cs| && cs[j'] == ds[j];
    }
  }

  lemma SameMarks(k: Key, cs: seq<Credit>, ds: seq<Credit>)
    requires multiset(cs) == multiset(ds) && OneKind(k, cs)
    ensures StartsUnclaimed(k, cs) == StartsUnclaimed(k, ds) && EndsOwned(k, cs) == EndsOwned(k, ds)
  {
    hide StartsUnclaimed, EndsOwned, Has, OneKind;
    OneKindOrderFree(k, cs, ds);
    MarksOfOneKind(k, cs);
    MarksOfOneKind(k, ds);
    forall via | Has(k, via, cs) ensures Has(k, via, ds) { HasOrderFree(k, via, cs, ds); }
    forall via | Has(k, via, ds) ensures Has(k, via, cs) { HasOrderFree(k, via, ds, cs); }
  }

  // ----- marks of rows -----

  lemma TimedMarks(ev: Evidence, e: Encounter, cs: seq<Credit>, k: Key)
    requires Tally(ev, e, cs).Some?
    ensures var m := Timed(Tally(ev, e, cs).value, ev.policy.bridgeSeconds); k in m ==> PetFlags(m[k], k, cs)
  {
    hide Tally, Totals, TargetTotals, Flags, ActiveSeconds, StartsUnclaimed, EndsOwned;
    TallyMatches(ev, e, cs);
    assert k in Tally(ev, e, cs).value ==> Describes(ev, e, Tally(ev, e, cs).value[k], k, cs);
  }

  /** A row is provisional when the first credit of its log is an unclaimed pet's, and has a
      pet when its last pet credit is an owned one's. */
  lemma MarksOfRow(ev: Evidence, e: Encounter, p: Participant)
    requires SnapshotOf(ev, e).Some? && p in SnapshotOf(ev, e).value.rows
    ensures InLedger(ev, e.facts)
    ensures var row := SnapshotOf(ev, e).value.rows[p]; var cs := Credits(ev, e, e.facts);
            row.provisional == StartsUnclaimed((p, row.elected), cs) && row.hasPet == EndsOwned((p, row.elected), cs)
            && (row.quality == ProvisionalPet <==> row.provisional)
  {
    hide Credits, Tally, Timed, Winners, Total, InclusiveSeconds, IsManaged, RoundRate, StartsUnclaimed, EndsOwned;
    var cs := Credits(ev, e, e.facts);
    var w := Winners(Timed(Tally(ev, e, cs).value, ev.policy.bridgeSeconds));
    TimedMarks(ev, e, cs, (p, w[p]));
  }

  /** Every row's elected log has credits of one kind only. */
  ghost predicate RowsOfOneKind(rows: map<Participant, Row>, cs: seq<Credit>) {
    forall p | p in rows :: OneKind((p, rows[p].elected), cs)
  }

  lemma EqualRows(ev: Evidence, e: Encounter, m: map<Key, Candidate>, n: map<Key, Candidate>, w: map<Participant, SourceId>, raid: U128)
    requires SameTables(m, n) && Covers(m, w)
    requires forall p | p in w :: m[(p, w[p])].provisional == n[(p, w[p])].provisional && m[(p, w[p])].hasPet == n[(p, w[p])].hasPet
    ensures Covers(n, w) && Rows(ev, e, m, w, raid) == Rows(ev, e, n, w, raid)
  {
    hide RoundRate, InclusiveSeconds, IsManaged;
    forall p | p in w ensures SameStanding(m[(p, w[p])], n[(p, w[p])]) {}
  }

  lemma OneKindKeepsOrder(ev: Evidence, e: Encounter, g: seq<nat>)
    requires InLedger(ev, e.facts) && OneStanding(Credits(ev, e, e.facts)) && multiset(g) == multiset(e.facts)
    requires SnapshotOf(ev, e).Some? ==> RowsOfOneKind(SnapshotOf(ev, e).value.rows, Credits(ev, e, e.facts))
    ensures SnapshotOf(ev, e.(facts := g)) == SnapshotOf(ev, e)
  {
    hide Credits, Tally, Timed, SameTables, Winners, Total, InclusiveSeconds, RowOf, OneKind, PetFlags;
    Reordered(ev, e, g);
    ElectionOrderFree(ev, e, g);
    var cs, ds := Credits(ev, e, e.facts), Credits(ev, e, g);
    TallyOrderFree(ev, e, cs, ds);
    if SnapshotOf(ev, e).Some? {
      PublishedEqual(ev, e, cs, ds);
    }
  }

  lemma PublishedEqual(ev: Evidence, e: Encounter, cs: seq<Credit>, ds: seq<Credit>)
    requires multiset(cs) == multiset(ds) && Tally(ev, e, cs).Some? && Tally(ev, e, ds).Some?
    requires var b := ev.policy.bridgeSeconds;
             SameTables(Timed(Tally(ev, e, cs).value, b), Timed(Tally(ev, e, ds).value, b))
    requires var r := Published(ev, e, cs, Tally(ev, e, cs).value); r.Some? && RowsOfOneKind(r.value.rows, cs)
    ensures Published(ev, e, cs, Tally(ev, e, cs).value) == Published(ev, e, ds, Tally(ev, e, ds).value)
  {
    hide Tally, Timed, SameTables, Winners, Total, InclusiveSeconds, IsManaged, RoundRate, OneKind, StartsUnclaimed, EndsOwned, Rows;
    var b := ev.policy.bridgeSeconds;
    var m, n := Timed(Tally(ev, e, cs).value, b), Timed(Tally(ev, e, ds).value, b);
    var w := Winners(m);
    SameWinners(m, n);
    TotalOrderFree(DamageElected(w), cs, ds);
    var raid := Total(DamageElected(w), cs);
    SharedKeys(m, n);
    forall p | p in w
      ensures m[(p, w[p])].provisional == n[(p, w[p])].provisional && m[(p, w[p])].hasPet == n[(p, w[p])].hasPet {
      ElectedInRow(ev, e, m, w, raid, p);
      TimedMarks(ev, e, cs, (p, w[p]));
      TimedMarks(ev, e, ds, (p, w[p]));
      SameMarks((p, w[p]), cs, ds);
    }
    EqualRows(ev, e, m, n, w, raid);
  }

  lemma SharedKeys(m: map<Key, Candidate>, n: map<Key, Candidate>)
    requires SameTables(m, n)
    ensures m.Keys == n.Keys
  {}

  lemma ElectedInRow(ev: Evidence, e: Encounter, m: map<Key, Candidate>, w: map<Participant, SourceId>, raid: U128, p: Participant)
    requires Covers(m, w) && p in w
    ensures p in Rows(ev, e, m, w, raid) && Rows(ev, e, m, w, raid)[p].elected == w[p]
  { hide InclusiveSeconds, IsManaged, RoundRate; }

  // ----- an order that shows -----

  function Fronted(facts: seq<nat>, a: nat): seq<nat>
    requires a < |facts|
  { [facts[a]] + (facts[..a] + facts[a + 1..]) }

  lemma FrontedSame(facts: seq<nat>, a: nat)
    requires a < |facts|
    ensures multiset(Fronted(facts, a)) == multiset(facts)
  { WithoutOne(facts, a); }

  /** With a credit's fact put in front, the credit comes first. */
  lemma FrontedCredit(ev: Evidence, e: Encounter, i: nat) returns (g: seq<nat>)
    requires InLedger(ev, e.facts) && i < |Credits(ev, e, e.facts)|
    ensures multiset(g) == multiset(e.facts) && InLedger(ev, g) && InLedger(ev, e.(facts := g).facts)
    ensures Credits(ev, e.(facts := g), g) != [] && Credits(ev, e.(facts := g), g)[0] == Credits(ev, e, e.facts)[i]
  {
    hide Classify;
    var c := Credits(ev, e, e.facts)[i];
    CreditsComeFromFacts(ev, e, e.facts, i);
    var a :| 0 <= a < |e.facts| && Classify(ev, e, ev.ledger[e.facts[a]]) == Some(c);
    g := Fronted(e.facts, a);
    FrontedSame(e.facts, a);
    var rest := e.facts[..a] + e.facts[a + 1..];
    CreditsConcat(ev, e, [e.facts[a]], rest);
    assert Credits(ev, e, []) == [] && [e.facts[a]][..0] == [];
    assert Credits(ev, e, [e.facts[a]]) == [c];
    CreditsIgnoreList(ev, e, g, g);
  }

  lemma FirstShows(k: Key, cs: seq<Credit>)
    requires cs != [] && KeyOf(cs[0]) == k
    ensures StartsUnclaimed(k, cs) <==> cs[0].via.UnclaimedPet?
  {}

  /** Putting this credit first shows it in the row. */
  lemma FrontedShows(ev: Evidence, e: Encounter, i: nat, p: Participant)
    requires InLedger(ev, e.facts) && SnapshotOf(ev, e).Some? && p in SnapshotOf(ev, e).value.rows
    requires i < |Credits(ev, e, e.facts)| && KeyOf(Credits(ev, e, e.facts)[i]) == (p, SnapshotOf(ev, e).value.rows[p].elected)
    requires forall g: seq<nat> | multiset(g) == multiset(e.facts) :: SnapshotOf(ev, e.(facts := g)) == SnapshotOf(ev, e)
    ensures SnapshotOf(ev, e).value.rows[p].provisional == Credits(ev, e, e.facts)[i].via.UnclaimedPet?
  {
    hide Credits, SnapshotOf, StartsUnclaimed, EndsOwned;
    var g := FrontedCredit(ev, e, i);
    MarksOfRow(ev, e.(facts := g), p);
    FirstShows(KeyOf(Credits(ev, e, e.facts)[i]), Credits(ev, e.(facts := g), g));
  }

  /** The order of the fact list shows in the published snapshot exactly when some row's
      elected log has both credits of an unclaimed pet and others. */
  lemma MarksOrderFreeIff(ev: Evidence, e: Encounter)
    requires InLedger(ev, e.facts) && OneStanding(Credits(ev, e, e.facts))
    ensures (forall g: seq<nat> | multiset(g) == multiset(e.facts) :: SnapshotOf(ev, e.(facts := g)) == SnapshotOf(ev, e))
            <==> (SnapshotOf(ev, e).Some? ==> RowsOfOneKind(SnapshotOf(ev, e).value.rows, Credits(ev, e, e.facts)))
  {
    hide Credits, SnapshotOf;
    var cs, r := Credits(ev, e, e.facts), SnapshotOf(ev, e);
    if r.Some? ==> RowsOfOneKind(r.value.rows, cs) {
      forall g: seq<nat> | multiset(g) == multiset(e.facts) ensures SnapshotOf(ev, e.(facts := g)) == r { OneKindKeepsOrder(ev, e, g); }
    }
    if forall g: seq<nat> | multiset(g) == multiset(e.facts) :: SnapshotOf(ev, e.(facts := g)) == r {
      if r.Some? {
        forall p, i, j | p in r.value.rows && 0 <= i < |cs| && 0 <= j < |cs|
                         && KeyOf(cs[i]) == (p, r.value.rows[p].elected) && KeyOf(cs[j]) == (p, r.value.rows[p].elected)
          ensures cs[i].via.UnclaimedPet? == cs[j].via.UnclaimedPet? {
          FrontedShows(ev, e, i, p);
          FrontedShows(ev, e, j, p);
        }
      }
    }
  }
}
