/** What a column may be proposed as, and what a settled column tells of its rivals, each said outright. */
module MappingMeaning {
  import opened Ordering
  import opened Sequences
  import opened Keys
  import opened Normalization
  import opened Mapping
  import opened Collisions

  // ---- proposals ----------------------------------------------------------------------------------------------

  ghost predicate OnItsOwn(v: ValueCandidate) { v.discriminating && v.candidate.subject == Self }

  /** Its detector may propose, of the record itself only, and no detector that may and fired is narrower. */
  ghost predicate Narrowest(vs: seq<ValueCandidate>, v: ValueCandidate) {
    OnItsOwn(v) && forall u :: u in vs && OnItsOwn(u) ==> u.specificity <= v.specificity
  }

  ghost predicate Agreeing(vs: seq<ValueCandidate>, c: Candidate) {
    exists v :: v in vs && v.candidate.field == c.field && v.candidate.subject == c.subject
  }

  ghost function FromValues(vs: seq<ValueCandidate>): ValueCandidate -> seq<Candidate> {
    (v: ValueCandidate) => if Narrowest(vs, v) then [v.candidate] else []
  }

  /** A name that is close, raised by values that agree with it: by 0.15, and to no more than 0.95. */
  ghost function Lifted(vs: seq<ValueCandidate>): Candidate -> seq<Candidate> {
    (c: Candidate) =>
      if c.how in {ExactAlias, AmbiguousAlias} || !Agreeing(vs, c) then []
      else [Candidate(c.field, Corroborated, if c.confidence <= 800 then c.confidence + 150 else 950, c.subject)]
  }

  lemma {:induction false} FinestIs(vs: seq<ValueCandidate>)
    ensures forall v :: v in vs && OnItsOwn(v) ==> v.specificity <= Finest(vs)
    ensures Finest(vs) > 0 ==> exists v :: v in vs && OnItsOwn(v) && v.specificity == Finest(vs)
  {
    if vs != [] {
      var n := |vs| - 1;
      FinestIs(vs[..n]);
      forall v ensures v in vs <==> v in vs[..n] || v == vs[n] { assert vs == vs[..n] + [vs[n]]; }
    }
  }

  lemma NarrowestIff(vs: seq<ValueCandidate>, v: ValueCandidate)
    requires v in vs
    ensures Narrowest(vs, v) <==> MayOriginate(v) && v.specificity == Finest(vs)
  {
    FinestIs(vs);
  }

  lemma {:induction false} OriginatingAreNarrowest(vs: seq<ValueCandidate>, all: seq<ValueCandidate>)
    requires forall v :: v in vs ==> v in all
    ensures OriginatingAs(vs, Finest(all)) == FlatMap(vs, FromValues(all))
  {
    if vs != [] {
      var n := |vs| - 1;
      assert vs[n] in vs && forall v :: v in vs[..n] ==> v in vs;
      NarrowestIff(all, vs[n]);
      OriginatingAreNarrowest(vs[..n], all);
    }
  }

  lemma {:induction false} CorroborationsAreLifted(names: seq<Candidate>, vs: seq<ValueCandidate>)
    ensures Corroborations(names, vs) == FlatMap(names, Lifted(vs))
  {
    if names != [] {
      var c := names[|names| - 1];
      assert Corroborates(vs, c) == Agreeing(vs, c);
      CorroborationsAreLifted(names[..|names| - 1], vs);
    }
  }

  /** What a column may be: what its name says, what only its values can mean, and what both say together, in that order. */
  lemma ProposalsAre(fs: Findings)
    ensures Proposals(fs) ==
      fs.aliases + fs.similarities + FlatMap(fs.values, FromValues(fs.values)) + FlatMap(fs.aliases + fs.similarities, Lifted(fs.values))
  {
    OriginatingAreNarrowest(fs.values, fs.values);
    CorroborationsAreLifted(fs.aliases + fs.similarities, fs.values);
  }

  /** The first of the most confident. */
  ghost predicate Leads(cs: seq<Candidate>, i: nat) {
    && i < |cs|
    && (forall j :: 0 <= j < |cs| ==> cs[j].confidence <= cs[i].confidence)
    && (forall j :: 0 <= j < i ==> cs[j].confidence < cs[i].confidence)
  }

  lemma {:induction false} BestLeads(cs: seq<Candidate>) returns (i: nat)
    requires cs != []
    ensures Leads(cs, i) && Best(cs) == cs[i]
  {
    if |cs| == 1 {
      i := 0;
    } else {
      hide Leads;
      var n := |cs| - 1;
      i := BestLeads(cs[..n]);
      OneMoreLeads(cs, i);
      if cs[n].confidence > cs[i].confidence { i := n; }
    }
  }

  lemma OneMoreLeads(cs: seq<Candidate>, i: nat)
    requires |cs| > 1 && Leads(cs[..|cs| - 1], i)
    ensures i < |cs| - 1 && if cs[|cs| - 1].confidence > cs[i].confidence then Leads(cs, |cs| - 1) else Leads(cs, i)
  {
    assert forall j :: 0 <= j < |cs| - 1 ==> cs[..|cs| - 1][j] == cs[j];
  }

  /** A column's claim once its best proposal is known: an ambiguous alias asks a person, and anything under 0.60 is no claim. */
  ghost predicate Claims(m: Claim, b: Candidate) {
    && m.confidence == b.confidence
    && (m.status == AutoAccepted <==> b.how != AmbiguousAlias && b.confidence >= 900)
    && (m.status == NeedsReview <==> b.how == AmbiguousAlias || 600 <= b.confidence < 900)
    && (m.status == Unmapped <==> b.how != AmbiguousAlias && b.confidence < 600)
    && (m.field, m.how, m.subject) == if m.status == Unmapped then (None, NoEvidence, Self) else (Some(b.field), b.how, b.subject)
  }

  /** A column claims its first most confident proposal, or nothing when it has none. */
  lemma MapColumnIs(column: string, fs: Findings) returns (i: nat)
    ensures MapColumn(column, fs).column == column && MapColumn(column, fs).collision == None
    ensures Proposals(fs) == [] ==> MapColumn(column, fs) == Claim(column, None, NoEvidence, 0, Unmapped, Self, None)
    ensures Proposals(fs) != [] ==> Leads(Proposals(fs), i) && Claims(MapColumn(column, fs), Proposals(fs)[i])
  {
    hide Proposals, Best;
    i := 0;
    if Proposals(fs) != [] { i := BestLeads(Proposals(fs)); }
  }

  // ---- rivals -------------------------------------------------------------------------------------------------

  /** An exact alias beats everything; name and values together beat one of them; a name beats values. */
  ghost predicate Beats(a: Evidence, b: Evidence) {
    match a
    case ExactAlias => b != ExactAlias
    case Corroborated => b != ExactAlias && b != Corroborated
    case AmbiguousAlias => b == ValueAnalysis || b == NoEvidence
    case Similarity => b == ValueAnalysis || b == NoEvidence
    case _ => false
  }

  lemma BeatsIff(a: Evidence, b: Evidence)
    ensures Beats(a, b) <==> Rank(a) > Rank(b)
    ensures !Beats(a, b) && !Beats(b, a) <==> Rank(a) == Rank(b)
  {
  }

  /** Another column with the same field of the same subject in mind. */
  ghost predicate RivalOf(was: seq<Claim>, i: nat, j: nat) {
    && i < |was| && j < |was|
    && was[i].field.Some? && was[j].field == was[i].field && was[j].subject == was[i].subject
  }

  /** Nobody after the same field has better evidence. */
  ghost predicate Unbeaten(was: seq<Claim>, j: nat) {
    j < |was| && forall k: nat :: RivalOf(was, j, k) ==> !Beats(was[k].how, was[j].how)
  }

  /** The names of the columns picked, in column order. */
  ghost function Named(was: seq<Claim>, picked: nat -> bool): seq<string> {
    if was == [] then []
    else Named(was[..|was| - 1], picked) + (if picked(|was| - 1) then [was[|was| - 1].column] else [])
  }

  ghost function All(was: seq<Claim>, i: nat): nat -> bool { (j: nat) => RivalOf(was, i, j) }
  ghost function Others(was: seq<Claim>, i: nat): nat -> bool { (j: nat) => RivalOf(was, i, j) && j != i }
  ghost function Winners(was: seq<Claim>, i: nat): nat -> bool { (j: nat) => RivalOf(was, i, j) && Unbeaten(was, j) }

  lemma {:induction false} NamedAre(was: seq<Claim>, ps: seq<nat>, picked: nat -> bool)
    requires Within(was, ps) && Ascending(ps) && forall j: nat :: j < |was| ==> (j in ps <==> picked(j))
    ensures ColumnNames(was, ps) == Named(was, picked)
  {
    assert ps != [] ==> ps[0] < |was|;
    if was != [] {
      var n := |was| - 1;
      if n in ps {
        var k := |ps| - 1;
        assert ps[k] == n;
        assert ps == ps[..k] + [n];
        assert Within(was[..n], ps[..k]);
        NamedAre(was[..n], ps[..k], picked);
        assert ColumnNames(was, ps) == ColumnNames(was[..n], ps[..k]) + [was[n].column];
      } else {
        assert forall k :: 0 <= k < |ps| ==> ps[k] in ps;
        NamedAre(was[..n], ps, picked);
        assert ColumnNames(was, ps) == ColumnNames(was[..n], ps);
      }
    }
  }

  lemma RivalsAre(was: seq<Claim>, i: nat, ps: seq<nat>)
    requires i < |was| && SlotOf(was[i]).Some? && ps == Positions(was, SlotOf(was[i]).value)
    ensures forall j: nat :: j < |was| ==> (j in ps <==> RivalOf(was, i, j))
  {
  }

  lemma WinnersAre(was: seq<Claim>, i: nat, ps: seq<nat>)
    requires i < |was| && SlotOf(was[i]).Some? && ps == Positions(was, SlotOf(was[i]).value)
    ensures forall j: nat :: j in Ranked(was, ps, BestRank(was, ps), true) <==> j < |was| && Winners(was, i)(j)
    ensures forall j: nat :: j in Ranked(was, ps, BestRank(was, ps), false) <==> j < |was| && RivalOf(was, i, j) && !Unbeaten(was, j)
  {
    hide Positions, Ranked, BestRank, Rank, Beats;
    RivalsAre(was, i, ps);
    forall j: nat | j in ps ensures Unbeaten(was, j) <==> Rank(was[j].how) == BestRank(was, ps) {
      UnbeatenIff(was, j, ps);
    }
  }

  lemma UnbeatenIff(was: seq<Claim>, j: nat, ps: seq<nat>)
    requires j < |was| && SlotOf(was[j]).Some? && ps == Positions(was, SlotOf(was[j]).value)
    ensures Unbeaten(was, j) <==> Rank(was[j].how) == BestRank(was, ps)
    ensures Unbeaten(was, j) <==> !Outranked(was, j)
  {
    hide Positions, BestRank, Rank, Beats;
    OutrankedIff(was, ps, j);
    forall k: nat ensures RivalOf(was, j, k) <==> SameSlot(was, j, k) {}
    forall k: nat | k < |was| ensures Beats(was[k].how, was[j].how) <==> Rank(was[k].how) > Rank(was[j].how) {
      BeatsIff(was[k].how, was[j].how);
    }
  }

  ghost predicate HasRival(was: seq<Claim>, i: nat) { exists j: nat :: j != i && RivalOf(was, i, j) }

  /** Two or more after one field, and this one unbeaten with another. */
  ghost predicate Tied(was: seq<Claim>, i: nat) { exists j: nat :: j != i && RivalOf(was, i, j) && Unbeaten(was, j) }

  lemma AloneIff(was: seq<Claim>, i: nat, ps: seq<nat>)
    requires i < |was| && SlotOf(was[i]).Some? && ps == Positions(was, SlotOf(was[i]).value)
    ensures HasRival(was, i) <==> |ps| >= 2
  {
    hide Positions;
    RivalsAre(was, i, ps);
    assert i in ps;
    if |ps| >= 2 {
      var j := if ps[0] == i then ps[1] else ps[0];
      assert j in ps && j != i;
    }
    if j: nat :| j != i && RivalOf(was, i, j) { assert j in ps; }
  }

  /** What is noted on a column that had rivals: all of them, and how it ended. */
  ghost predicate Tells(c: Collision, was: seq<Claim>, i: nat)
    requires i < |was| && was[i].field.Some?
  {
    && c.field == was[i].field.value && c.subject == was[i].subject && c.competing == Named(was, All(was, i))
    && c.outcome == if !Unbeaten(was, i) then Yielded(Named(was, Winners(was, i)), was[i].field.value)
                    else if Tied(was, i) then Contested
                    else Held(Named(was, Others(was, i)))
  }

  /** A column keeps its claim without a rival; with one it is noted who competed and who lost to whom. */
  lemma CollisionTells(was: seq<Claim>, i: nat)
    requires i < |was|
    ensures !HasRival(was, i) ==> Settle(was)[i] == was[i]
    ensures HasRival(was, i) ==>
      was[i].field.Some? && Settle(was)[i].collision.Some? && Tells(Settle(was)[i].collision.value, was, i)
  {
    if was[i].field.Some? {
      hide Positions, BestRank, Ranked, ColumnNames, Named, Unbeaten, Tied, HasRival, Settle;
      var ps := Positions(was, SlotOf(was[i]).value);
      AloneIff(was, i, ps);
      if |ps| >= 2 {
        VerdictTells(was, ps, i);
        assert Settle(was)[i] == Settled(was, i);
        assert Settled(was, i) == Verdict(was, ps, i);
      }
    }
  }

  lemma TiedIff(was: seq<Claim>, ps: seq<nat>, i: nat)
    requires i < |was| && SlotOf(was[i]).Some? && ps == Positions(was, SlotOf(was[i]).value) && Unbeaten(was, i)
    ensures Tied(was, i) <==> |Ranked(was, ps, BestRank(was, ps), true)| > 1
  {
    hide Positions, BestRank, Ranked, Unbeaten;
    var winners := Ranked(was, ps, BestRank(was, ps), true);
    WinnersAre(was, i, ps);
    assert i in winners;
    if |winners| > 1 {
      var j := if winners[0] == i then winners[1] else winners[0];
      assert j in winners && j != i;
    }
    if j: nat :| j != i && RivalOf(was, i, j) && Unbeaten(was, j) { assert j in winners; }
  }

  lemma LosersAreOthers(was: seq<Claim>, ps: seq<nat>, i: nat)
    requires i < |was| && SlotOf(was[i]).Some? && ps == Positions(was, SlotOf(was[i]).value) && Unbeaten(was, i) && !Tied(was, i)
    ensures ColumnNames(was, Ranked(was, ps, BestRank(was, ps), false)) == Named(was, Others(was, i))
  {
    hide Positions, BestRank, Ranked, Unbeaten, ColumnNames, Named;
    WinnersAre(was, i, ps);
    NamedAre(was, Ranked(was, ps, BestRank(was, ps), false), Others(was, i));
  }

  lemma VerdictTells(was: seq<Claim>, ps: seq<nat>, i: nat)
    requires i < |was| && SlotOf(was[i]).Some? && ps == Positions(was, SlotOf(was[i]).value) && |ps| >= 2
    ensures Verdict(was, ps, i).collision.Some? && Tells(Verdict(was, ps, i).collision.value, was, i)
  {
    hide Positions, BestRank, Ranked, Unbeaten, ColumnNames, Named, Tied;
    RivalsAre(was, i, ps);
    NamedAre(was, ps, All(was, i));
    UnbeatenIff(was, i, ps);
    if Unbeaten(was, i) {
      TiedIff(was, ps, i);
      if !Tied(was, i) { LosersAreOthers(was, ps, i); }
    } else {
      WinnersAre(was, i, ps);
      NamedAre(was, Ranked(was, ps, BestRank(was, ps), true), Winners(was, i));
    }
  }
}
