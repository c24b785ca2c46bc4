/** Settling columns that claim the same field, in place. */
module Collisions {
  import opened Ordering
  import opened Keys
  import opened Normalization
  import opened Mapping

  // ---- who wins ----------------------------------------------------------------------------------

  predicate SameSlot(was: seq<Claim>, i: nat, j: nat) {
    i < |was| && j < |was| && SlotOf(was[i]).Some? && SlotOf(was[i]) == SlotOf(was[j])
  }

  /** Somebody claims the same field of the same subject on better evidence. */
  ghost predicate Outranked(was: seq<Claim>, i: nat) {
    exists j: nat :: SameSlot(was, i, j) && Rank(was[j].how) > Rank(was[i].how)
  }

  /** Somebody else claims it on evidence just as good. */
  ghost predicate Rivalled(was: seq<Claim>, i: nat) {
    exists j: nat :: j != i && SameSlot(was, i, j) && Rank(was[j].how) == Rank(was[i].how)
  }

  lemma OutrankedIff(was: seq<Claim>, ps: seq<nat>, i: nat)
    requires i < |was| && SlotOf(was[i]).Some? && ps == Positions(was, SlotOf(was[i]).value)
    ensures Outranked(was, i) <==> Rank(was[i].how) != BestRank(was, ps)
  {
    assert i in ps;
    var k :| 0 <= k < |ps| && Rank(was[ps[k]].how) == BestRank(was, ps);
    if Rank(was[i].how) != BestRank(was, ps) { assert SameSlot(was, i, ps[k]); }
    if j: nat :| SameSlot(was, i, j) && Rank(was[j].how) > Rank(was[i].how) { assert j in ps; }
  }

  lemma RivalledIff(was: seq<Claim>, ps: seq<nat>, i: nat)
    requires i < |was| && SlotOf(was[i]).Some? && ps == Positions(was, SlotOf(was[i]).value)
    requires Rank(was[i].how) == BestRank(was, ps)
    ensures Rivalled(was, i) <==> |Ranked(was, ps, BestRank(was, ps), true)| > 1
  {
    hide Positions, Ranked, BestRank, Rank;
    var winners := Ranked(was, ps, BestRank(was, ps), true);
    assert i in ps && i in winners;
    if |winners| > 1 {
      var j := if winners[0] == i then winners[1] else winners[0];
      assert j in winners && j in ps;
      assert SameSlot(was, i, j);
    }
    if j: nat :| j != i && SameSlot(was, i, j) && Rank(was[j].how) == Rank(was[i].how) {
      assert j in ps && j in winners;
    }
  }

  lemma AloneIsUnchallenged(was: seq<Claim>, ps: seq<nat>, i: nat)
    requires i < |was| && SlotOf(was[i]).Some? && ps == Positions(was, SlotOf(was[i]).value) && |ps| < 2
    ensures !Outranked(was, i) && !Rivalled(was, i)
  {
    hide Positions, Rank;
    assert i in ps;
    forall j: nat | SameSlot(was, i, j) ensures j == i { assert j in ps; }
  }

  /**
   * What becomes of a claim, said without counting claimants: better evidence elsewhere takes its field
   * away altogether, equal evidence elsewhere sends it to a person, and otherwise it keeps what it had.
   */
  lemma SettledIs(was: seq<Claim>, i: nat)
    requires i < |was|
    ensures var c, d := was[i], Settled(was, i);
      && d.column == c.column && d.confidence == c.confidence
      && (d.field, d.how, d.status, d.subject) ==
           if Outranked(was, i) then (None, NoEvidence, Unmapped, Self)
           else (c.field, c.how, if Rivalled(was, i) && c.status == AutoAccepted then NeedsReview else c.status, c.subject)
  {
    hide Positions, BestRank, Ranked, ColumnNames;
    if SlotOf(was[i]).Some? {
      var ps := Positions(was, SlotOf(was[i]).value);
      if |ps| < 2 {
        AloneIsUnchallenged(was, ps, i);
      } else {
        OutrankedIff(was, ps, i);
        if Rank(was[i].how) == BestRank(was, ps) { RivalledIff(was, ps, i); }
      }
    }
  }

  // ---- what the result promises ------------------------------------------------------------------------

  /** Count, order and columns are kept, and a column keeps the field it proposed unless somebody had better evidence. */
  lemma ColumnsKeepTheirFieldUnlessOutranked(was: seq<Claim>, i: nat)
    requires i < |was|
    ensures var out := Settle(was);
      && |out| == |was| && out[i].column == was[i].column
      && (out[i].field.None? <==> was[i].field.None? || Outranked(was, i))
      && (out[i].field.Some? ==> SlotOf(out[i]) == SlotOf(was[i]) && out[i].how == was[i].how)
  {
    SettledIs(was, i);
  }

  lemma LeftWithAField(was: seq<Claim>, i: nat)
    requires i < |was| && SlotOf(Settle(was)[i]).Some?
    ensures SlotOf(Settle(was)[i]) == SlotOf(was[i]) && Settle(was)[i].how == was[i].how && !Outranked(was, i)
    ensures Rivalled(was, i) ==> Settle(was)[i].status != AutoAccepted
  {
    hide Settled, Outranked, Rivalled;
    SettledIs(was, i);
  }

  /**
   * Whoever is left with a field has evidence of the best kind anybody offered for it, and no two columns
   * left with one field are accepted: at most one column per field and subject ever is.
   */
  lemma AtMostOneIsAccepted(was: seq<Claim>, i: nat, j: nat)
    requires i != j && SameSlot(Settle(was), i, j)
    ensures Settle(was)[i].status != AutoAccepted && Settle(was)[j].status != AutoAccepted
    ensures Rank(Settle(was)[i].how) == Rank(Settle(was)[j].how)
    ensures forall k: nat :: SameSlot(was, i, k) ==> Rank(was[k].how) <= Rank(Settle(was)[i].how)
  {
    hide Settled;
    LeftWithAField(was, i);
    LeftWithAField(was, j);
    assert SameSlot(was, i, j) && SameSlot(was, j, i);
  }

  /** Strictly better evidence than every other claimant keeps its field and its status. */
  lemma SoleBestIsUntouched(was: seq<Claim>, i: nat)
    requires i < |was| && was[i].field.Some?
    requires forall j: nat :: j != i && SameSlot(was, i, j) ==> Rank(was[j].how) < Rank(was[i].how)
    ensures var d := Settle(was)[i];
      d.field == was[i].field && d.how == was[i].how && d.status == was[i].status && d.subject == was[i].subject
  {
    SettledIs(was, i);
  }

  lemma NothingLeftToSettle(was: seq<Claim>, i: nat)
    requires i < |was|
    ensures !Outranked(Settle(was), i)
    ensures Rivalled(Settle(was), i) ==> Settle(was)[i].status != AutoAccepted
  {
    hide Settled;
    var out := Settle(was);
    forall j: nat | j != i && SameSlot(out, i, j)
      ensures Rank(out[j].how) == Rank(out[i].how) && out[i].status != AutoAccepted
    {
      AtMostOneIsAccepted(was, i, j);
    }
  }

  /** Settling what is settled changes no field, no kind of evidence, no status and no subject. */
  lemma SettlingAgainChangesNothing(was: seq<Claim>, i: nat)
    requires i < |was|
    ensures var once, twice := Settle(was)[i], Settle(Settle(was))[i];
      once.field == twice.field && once.how == twice.how && once.status == twice.status && once.subject == twice.subject
  {
    hide Settled, Outranked, Rivalled;
    SettledIs(Settle(was), i);
    NothingLeftToSettle(was, i);
  }

  // ---- in place --------------------------------------------------------------------------------------------

  class ColumnClaim {
    const column: string
    const confidence: nat
    var field: Option<string>
    var how: Evidence
    var status: MappingStatus
    var subject: Role
    var collision: Option<Collision>

    constructor (c: Claim)
      ensures Value() == c
    {
      column, confidence := c.column, c.confidence;
      field, how, status, subject, collision := c.field, c.how, c.status, c.subject, c.collision;
    }

    function Value(): Claim
      reads this
    {
      Claim(column, field, how, confidence, status, subject, collision)
    }
  }

  function Values(mappings: seq<ColumnClaim>): seq<Claim>
    reads mappings
  {
    seq(|mappings|, i requires 0 <= i < |mappings| reads mappings => mappings[i].Value())
  }

  ghost predicate Apart(mappings: seq<ColumnClaim>) {
    forall i, j :: 0 <= i < j < |mappings| ==> mappings[i] != mappings[j]
  }

  // ---- grouping the claimants ------------------------------------------------------------------

  /** Claimants by slot, the slots in order of first appearance. */
  datatype Groups = Groups(slots: seq<Slot>, at: map<Slot, seq<nat>>)

  ghost predicate GroupsOf(g: Groups, was: seq<Claim>) {
    && (forall s :: s in g.at <==> s in g.slots)
    && (forall i, j :: 0 <= i < j < |g.slots| ==> g.slots[i] != g.slots[j])
    && (forall s :: s in g.at ==> g.at[s] == Positions(was, s))
    && (forall s :: s !in g.at ==> Positions(was, s) == [])
  }

  function Entered(g: Groups, slot: Slot, n: nat): Groups {
    if slot in g.at then g.(at := g.at[slot := g.at[slot] + [n]]) else Groups(g.slots + [slot], g.at[slot := [n]])
  }

  lemma PositionsAppend(was: seq<Claim>, c: Claim, slot: Slot)
    ensures Positions(was + [c], slot) == Positions(was, slot) + (if SlotOf(c) == Some(slot) then [|was|] else [])
  {
    assert (was + [c])[..|was|] == was;
  }

  lemma EnteredIsGroups(g: Groups, was: seq<Claim>, c: Claim)
    requires GroupsOf(g, was)
    ensures GroupsOf(if SlotOf(c).None? then g else Entered(g, SlotOf(c).value, |was|), was + [c])
  {
    hide Positions;
    forall s ensures Positions(was + [c], s) == Positions(was, s) + (if SlotOf(c) == Some(s) then [|was|] else []) {
      PositionsAppend(was, c, s);
    }
  }

  method GroupBySlot(was: seq<Claim>) returns (g: Groups)
    ensures GroupsOf(g, was)
  {
    g := Groups([], map[]);
    for n := 0 to |was|
      invariant GroupsOf(g, was[..n])
    {
      hide GroupsOf;
      assert was[..n + 1] == was[..n] + [was[n]];
      EnteredIsGroups(g, was[..n], was[n]);
      if was[n].field.Some? {
        g := Entered(g, Slot(was[n].field.value, was[n].subject), n);
      }
    }
    assert was[..|was|] == was;
  }

  // ---- settling one group ------------------------------------------------------------------------

  /** A winner holds the field or is contested for it; anyone else yields it. */
  method SettleOne(m: ColumnClaim, was: seq<Claim>, ps: seq<nat>, i: nat)
    requires Within(was, ps) && i < |was| && m.Value() == was[i] && was[i].field.Some?
    modifies m
    ensures m.Value() == Verdict(was, ps, i)
  {
    var competing := ColumnNames(was, ps);
    var best := BestRank(was, ps);
    var winners := Ranked(was, ps, best, true);
    var field, subject := m.field.value, m.subject;
    if Rank(m.how) == best {
      if |winners| > 1 {
        m.collision := Some(Collision(field, subject, competing, Contested));
        if m.status == AutoAccepted { m.status := NeedsReview; }
      } else {
        m.collision := Some(Collision(field, subject, competing, Held(ColumnNames(was, Ranked(was, ps, best, false)))));
      }
    } else {
      m.field := None;
      m.how := NoEvidence;
      m.status := Unmapped;
      m.subject := Self;
      m.collision := Some(Collision(field, subject, competing, Yielded(ColumnNames(was, winners), field)));
    }
  }

  /** The mapping at one position changes and no other does: they are different objects even when they look alike. */
  method SettleAt(mappings: seq<ColumnClaim>, was: seq<Claim>, ps: seq<nat>, i: nat)
    requires Apart(mappings) && |was| == |mappings| && Within(was, ps) && i < |was|
    requires Values(mappings)[i] == was[i] && was[i].field.Some?
    modifies mappings
    ensures Values(mappings) == old(Values(mappings))[i := Verdict(was, ps, i)]
  {
    hide Verdict;
    ghost var before := Values(mappings);
    SettleOne(mappings[i], was, ps, i);
    forall j | 0 <= j < |mappings| && j != i ensures mappings[j].Value() == before[j] {
      assert mappings[j] != mappings[i];
    }
  }

  /** The group's first `k` members have had their turn. */
  function Turns(before: seq<Claim>, was: seq<Claim>, ps: seq<nat>, k: nat): (r: seq<Claim>)
    requires |before| == |was| && Within(was, ps) && k <= |ps| && forall j :: 0 <= j < |ps| ==> was[ps[j]].field.Some?
    ensures |r| == |was|
  {
    if k == 0 then before else Turns(before, was, ps, k - 1)[ps[k - 1] := Verdict(was, ps, ps[k - 1])]
  }

  lemma {:induction false} TurnsAre(before: seq<Claim>, was: seq<Claim>, ps: seq<nat>, k: nat, i: nat)
    requires |before| == |was| && Within(was, ps) && k <= |ps| && i < |was|
    requires forall j :: 0 <= j < |ps| ==> was[ps[j]].field.Some?
    ensures i in ps[..k] ==> was[i].field.Some? && Turns(before, was, ps, k)[i] == Verdict(was, ps, i)
    ensures i !in ps[..k] ==> Turns(before, was, ps, k)[i] == before[i]
  {
    hide Verdict;
    if k > 0 {
      TurnsAre(before, was, ps, k - 1, i);
      assert ps[..k] == ps[..k - 1] + [ps[k - 1]];
    }
  }

  /** One group of two or more: nothing of it has changed before its turn. */
  method SettleGroup(mappings: seq<ColumnClaim>, was: seq<Claim>, slot: Slot, ps: seq<nat>)
    requires Apart(mappings) && |was| == |mappings| && ps == Positions(was, slot)
    requires forall k :: 0 <= k < |ps| ==> Values(mappings)[ps[k]] == was[ps[k]]
    modifies mappings
    ensures Values(mappings) == Turns(old(Values(mappings)), was, ps, |ps|)
  {
    hide Positions, Verdict;
    ghost var before := Values(mappings);
    for k := 0 to |ps|
      invariant Values(mappings) == Turns(before, was, ps, k)
    {
      assert ps[k] !in ps[..k];
      TurnsAre(before, was, ps, k, ps[k]);
      SettleAt(mappings, was, ps, ps[k]);
    }
  }

  ghost predicate SettledIn(now: seq<Claim>, was: seq<Claim>, done: seq<Slot>) {
    && |now| == |was|
    && forall i :: 0 <= i < |was| ==>
         now[i] == if SlotOf(was[i]).Some? && SlotOf(was[i]).value in done then Settled(was, i) else was[i]
  }

  lemma NothingSettled(was: seq<Claim>)
    ensures SettledIn(was, was, [])
  {
  }

  /** A group's turns settle exactly its own slot. */
  lemma TurnsSettle(now: seq<Claim>, was: seq<Claim>, done: seq<Slot>, slot: Slot)
    requires SettledIn(now, was, done)
    ensures var ps := Positions(was, slot);
      && (|ps| >= 2 ==> SettledIn(Turns(now, was, ps, |ps|), was, done + [slot]))
      && (|ps| < 2 ==> SettledIn(now, was, done + [slot]))
  {
    hide Verdict;
    var ps := Positions(was, slot);
    assert ps[..|ps|] == ps;
    forall i | 0 <= i < |was| ensures
      && (|ps| >= 2 ==> Turns(now, was, ps, |ps|)[i] == if SlotOf(was[i]) == Some(slot) then Settled(was, i) else now[i])
      && (|ps| < 2 && SlotOf(was[i]) == Some(slot) ==> Settled(was, i) == was[i])
    {
      TurnsAre(now, was, ps, |ps|, i);
      assert i in ps <==> SlotOf(was[i]) == Some(slot);
    }
  }

  lemma NotYetTouched(now: seq<Claim>, was: seq<Claim>, done: seq<Slot>, slot: Slot)
    requires SettledIn(now, was, done) && slot !in done
    ensures forall k :: 0 <= k < |Positions(was, slot)| ==> now[Positions(was, slot)[k]] == was[Positions(was, slot)[k]]
  {
    hide Settled;
  }

  lemma EverySlotDone(g: Groups, now: seq<Claim>, was: seq<Claim>)
    requires GroupsOf(g, was) && SettledIn(now, was, g.slots)
    ensures now == Settle(was)
  {
    forall i | 0 <= i < |was| && SlotOf(was[i]).Some? ensures SlotOf(was[i]).value in g.slots {
      assert i in Positions(was, SlotOf(was[i]).value);
    }
  }

  /** `_resolve_collisions`. */
  method ResolveCollisions(mappings: seq<ColumnClaim>)
    requires Apart(mappings)
    modifies mappings
    ensures Values(mappings) == Settle(old(Values(mappings)))
  {
    hide SettledIn, Settle, Turns, Positions;
    var was := Values(mappings);
    var g := GroupBySlot(was);
    NothingSettled(was);
    for k := 0 to |g.slots|
      invariant SettledIn(Values(mappings), was, g.slots[..k])
    {
      var slot := g.slots[k];
      assert slot !in g.slots[..k];
      NotYetTouched(Values(mappings), was, g.slots[..k], slot);
      TurnsSettle(Values(mappings), was, g.slots[..k], slot);
      assert g.slots[..k + 1] == g.slots[..k] + [slot];
      if |g.at[slot]| >= 2 {
        SettleGroup(mappings, was, slot, g.at[slot]);
      }
    }
    assert g.slots[..|g.slots|] == g.slots;
    EverySlotDone(g, Values(mappings), was);
  }

  function Mapped(columns: seq<string>, findings: seq<Findings>): seq<Claim>
    requires |columns| == |findings|
  {
    seq(|columns|, i requires 0 <= i < |columns| => MapColumn(columns[i], findings[i]))
  }

  /** `map_columns`: each column on its own, then the collisions among them. */
  method MapColumns(columns: seq<string>, findings: seq<Findings>) returns (mappings: seq<ColumnClaim>)
    requires |columns| == |findings|
    ensures Apart(mappings) && |mappings| == |columns|
    ensures Values(mappings) == Settle(Mapped(columns, findings))
  {
    hide MapColumn, Settle;
    mappings := [];
    for i := 0 to |columns|
      invariant |mappings| == i && Apart(mappings) && (forall j :: 0 <= j < i ==> fresh(mappings[j]))
      invariant forall j :: 0 <= j < i ==> mappings[j].Value() == MapColumn(columns[j], findings[j])
    {
      var m := new ColumnClaim(MapColumn(columns[i], findings[i]));
      mappings := mappings + [m];
    }
    assert Values(mappings) == Mapped(columns, findings);
    ResolveCollisions(mappings);
  }
}
