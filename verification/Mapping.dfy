/** Which canonical field each column stands for, and what happens when two columns claim the same one. */
module Mapping {
  import opened Ordering
  import opened Keys
  import opened Normalization

  /** What kind of evidence a mapping rests on. */
  datatype Evidence = ExactAlias | Corroborated | AmbiguousAlias | Similarity | ValueAnalysis | NoEvidence

  /** How decisive each kind is about which field a column is. */
  function Rank(how: Evidence): nat {
    match how case ExactAlias => 3 case Corroborated => 2 case AmbiguousAlias => 1 case Similarity => 1 case _ => 0
  }

  // ---- one column: scores in thousandths, the scorers abstract ---------------------------------

  const AUTO_ACCEPT_THRESHOLD := 900
  const REVIEW_THRESHOLD := 600
  const VALUE_ANALYSIS_CAP := 750
  const CORROBORATION_BOOST := 150
  const CORROBORATION_CAP := 950
  const AMBIGUOUS_ALIAS_CONFIDENCE := 850

  datatype Candidate = Candidate(field: string, how: Evidence, confidence: nat, subject: Role)

  /** A value candidate remembers its detector's specificity, and whether that detector may originate a proposal. */
  datatype ValueCandidate = ValueCandidate(candidate: Candidate, discriminating: bool, specificity: nat)

  /** What the scorers found for a column. */
  datatype Findings = Findings(aliases: seq<Candidate>, similarities: seq<Candidate>, values: seq<ValueCandidate>)

  /** What the scorers promise about their scores. */
  ghost predicate Scored(fs: Findings) {
    && (forall c :: c in fs.aliases ==>
          || (c.how == ExactAlias && c.confidence == 1000)
          || (c.how == AmbiguousAlias && c.confidence == AMBIGUOUS_ALIAS_CONFIDENCE))
    && (forall c :: c in fs.similarities ==> c.how == Similarity && REVIEW_THRESHOLD <= c.confidence <= 1000)
    && (forall v :: v in fs.values ==>
          v.candidate.how == ValueAnalysis && REVIEW_THRESHOLD <= v.candidate.confidence <= VALUE_ANALYSIS_CAP)
  }

  predicate MayOriginate(v: ValueCandidate) { v.discriminating && v.candidate.subject == Self }

  function Finest(vs: seq<ValueCandidate>): nat {
    if vs == [] then 0
    else
      var rest := Finest(vs[..|vs| - 1]);
      var v := vs[|vs| - 1];
      if MayOriginate(v) && v.specificity > rest then v.specificity else rest
  }

  /** Proposals values may make on their own: discriminating, about the record itself, and of the finest kind that fired. */
  function OriginatingAs(vs: seq<ValueCandidate>, finest: nat): seq<Candidate> {
    if vs == [] then []
    else
      var init, v := OriginatingAs(vs[..|vs| - 1], finest), vs[|vs| - 1];
      if MayOriginate(v) && v.specificity == finest then init + [v.candidate] else init
  }

  predicate Corroborates(vs: seq<ValueCandidate>, c: Candidate) {
    exists v :: v in vs && v.candidate.field == c.field && v.candidate.subject == c.subject
  }

  function Boosted(c: Candidate): Candidate {
    var raised := c.confidence + CORROBORATION_BOOST;
    c.(how := Corroborated, confidence := if raised > CORROBORATION_CAP then CORROBORATION_CAP else raised)
  }

  /** Names and values agreeing; an exact alias needs no help, and an ambiguous one must get none. */
  function Corroborations(names: seq<Candidate>, vs: seq<ValueCandidate>): seq<Candidate> {
    if names == [] then []
    else
      var init, c := Corroborations(names[..|names| - 1], vs), names[|names| - 1];
      if c.how != ExactAlias && c.how != AmbiguousAlias && Corroborates(vs, c) then init + [Boosted(c)] else init
  }

  function Proposals(fs: Findings): seq<Candidate> {
    fs.aliases + fs.similarities + OriginatingAs(fs.values, Finest(fs.values)) + Corroborations(fs.aliases + fs.similarities, fs.values)
  }

  /** The first of the highest: what a stable descending sort puts in front. */
  function Best(cs: seq<Candidate>): (b: Candidate)
    requires cs != []
    ensures b in cs && forall c :: c in cs ==> c.confidence <= b.confidence
  {
    if |cs| == 1 then cs[0]
    else
      var init := Best(cs[..|cs| - 1]);
      assert cs == cs[..|cs| - 1] + [cs[|cs| - 1]];
      if cs[|cs| - 1].confidence > init.confidence then cs[|cs| - 1] else init
  }

  function StatusFor(confidence: nat): MappingStatus {
    if confidence >= AUTO_ACCEPT_THRESHOLD then AutoAccepted
    else if confidence >= REVIEW_THRESHOLD then NeedsReview
    else Unmapped
  }

  /** A note that columns competed, kept with each of them. */
  datatype Outcome = Contested | Held(beat: seq<string>) | Yielded(lostTo: seq<string>, wouldHaveBeen: string)
  datatype Collision = Collision(field: string, subject: Role, competing: seq<string>, outcome: Outcome)

  /** A mapping's value. */
  datatype Claim = Claim(column: string, field: Option<string>, how: Evidence, confidence: nat, status: MappingStatus,
                         subject: Role, collision: Option<Collision>)

  /** `map_column`. */
  function MapColumn(column: string, fs: Findings): Claim {
    var cs := Proposals(fs);
    if cs == [] then Claim(column, None, NoEvidence, 0, Unmapped, Self, None)
    else
      var best := Best(cs);
      var status := if best.how == AmbiguousAlias then NeedsReview else StatusFor(best.confidence);
      if status == Unmapped then Claim(column, None, NoEvidence, best.confidence, Unmapped, Self, None)
      else Claim(column, Some(best.field), best.how, best.confidence, status, best.subject, None)
  }

  /** A similarity good enough to be accepted: high by itself, or lifted by values that agree. */
  predicate Convincing(c: Candidate, vs: seq<ValueCandidate>) {
    c.confidence >= AUTO_ACCEPT_THRESHOLD
    || (c.confidence + CORROBORATION_BOOST >= AUTO_ACCEPT_THRESHOLD && Corroborates(vs, c))
  }

  lemma {:induction false} CorroborationsAre(names: seq<Candidate>, vs: seq<ValueCandidate>)
    ensures forall b :: b in Corroborations(names, vs) <==>
      exists c :: c in names && c.how != ExactAlias && c.how != AmbiguousAlias && Corroborates(vs, c) && b == Boosted(c)
  {
    if names != [] {
      CorroborationsAre(names[..|names| - 1], vs);
      assert names == names[..|names| - 1] + [names[|names| - 1]];
      assert forall c :: c in names <==> c in names[..|names| - 1] || c == names[|names| - 1];
    }
  }

  lemma {:induction false} OriginatingAre(vs: seq<ValueCandidate>, finest: nat)
    ensures forall c :: c in OriginatingAs(vs, finest) ==>
      exists v :: v in vs && MayOriginate(v) && v.specificity == finest && c == v.candidate
  {
    if vs != [] {
      OriginatingAre(vs[..|vs| - 1], finest);
      assert vs == vs[..|vs| - 1] + [vs[|vs| - 1]];
    }
  }

  /** Nothing that reaches the line rests on values alone or on an ambiguous alias. */
  lemma AcceptableProposals(fs: Findings, b: Candidate)
    requires Scored(fs) && b in Proposals(fs) && b.confidence >= AUTO_ACCEPT_THRESHOLD
    ensures b.how in {ExactAlias, Similarity, Corroborated}
    ensures || (exists c :: c in fs.aliases && c.how == ExactAlias)
            || (exists c :: c in fs.similarities && Convincing(c, fs.values))
  {
    OriginatingAre(fs.values, Finest(fs.values));
    var names := fs.aliases + fs.similarities;
    CorroborationsAre(names, fs.values);
    if b in Corroborations(names, fs.values) {
      var c :| c in names && c.how != ExactAlias && c.how != AmbiguousAlias && Corroborates(fs.values, c) && b == Boosted(c);
      assert c in fs.similarities && Convincing(c, fs.values);
    } else if b in fs.similarities {
      assert Convincing(b, fs.values);
    }
  }

  lemma ConvincingIsProposed(fs: Findings, c: Candidate) returns (b: Candidate)
    requires Scored(fs) && c in fs.similarities && Convincing(c, fs.values)
    ensures b in Proposals(fs) && b.confidence >= AUTO_ACCEPT_THRESHOLD
  {
    if c.confidence >= AUTO_ACCEPT_THRESHOLD {
      b := c;
    } else {
      var names := fs.aliases + fs.similarities;
      CorroborationsAre(names, fs.values);
      assert c in names;
      b := Boosted(c);
      assert b in Corroborations(names, fs.values);
    }
  }

  /**
   * A column is accepted without a person exactly when an exact alias names it or a similar name is
   * convincing; never on what its values look like alone, and never as an ambiguous alias.
   */
  lemma AcceptedIff(column: string, fs: Findings)
    requires Scored(fs)
    ensures MapColumn(column, fs).status == AutoAccepted <==>
      || (exists c :: c in fs.aliases && c.how == ExactAlias)
      || (exists c :: c in fs.similarities && Convincing(c, fs.values))
    ensures MapColumn(column, fs).status == AutoAccepted ==> MapColumn(column, fs).how in {ExactAlias, Similarity, Corroborated}
  {
    var cs := Proposals(fs);
    if c :| c in fs.aliases && c.how == ExactAlias {
      assert c in cs && Best(cs).confidence >= 1000;
      AcceptableProposals(fs, Best(cs));
    } else if c :| c in fs.similarities && Convincing(c, fs.values) {
      var b := ConvincingIsProposed(fs, c);
      AcceptableProposals(fs, Best(cs));
    } else if MapColumn(column, fs).status == AutoAccepted {
      AcceptableProposals(fs, Best(cs));
    }
  }

  /**
   * So agreement between name and values is not the only way a name that is not exact gets through: a
   * similarity of 0.90 does it with no values at all, and it also overrules an ambiguous alias.
   */
  lemma SimilarNameNeedsNoValues(column: string, field: string, other: string)
    ensures MapColumn(column, Findings([], [Candidate(field, Similarity, 900, Self)], [])) ==
            Claim(column, Some(field), Similarity, 900, AutoAccepted, Self, None)
    ensures MapColumn(column, Findings([Candidate(other, AmbiguousAlias, 850, Self)], [Candidate(field, Similarity, 900, Self)], [])) ==
            Claim(column, Some(field), Similarity, 900, AutoAccepted, Self, None)
  {
    var s, a := Candidate(field, Similarity, 900, Self), Candidate(other, AmbiguousAlias, 850, Self);
    var one, two := Findings([], [s], []), Findings([a], [s], []);
    NothingCorroborated(one.aliases + one.similarities);
    NothingCorroborated(two.aliases + two.similarities);
    assert Proposals(one) == [s];
    assert Proposals(two) == [a, s];
    assert s in Proposals(two);
    assert Best([a, s]) in [a, s];
  }

  lemma {:induction false} NothingCorroborated(names: seq<Candidate>)
    ensures Corroborations(names, []) == []
  {
    if names != [] { NothingCorroborated(names[..|names| - 1]); }
  }

  // ---- two columns, one field ---------------------------------------------------------------------

  /** What columns compete for: a field of a subject. */
  datatype Slot = Slot(field: string, subject: Role)

  function SlotOf(c: Claim): Option<Slot> { if c.field.None? then None else Some(Slot(c.field.value, c.subject)) }

  ghost predicate Within(was: seq<Claim>, ps: seq<nat>) { forall k :: 0 <= k < |ps| ==> ps[k] < |was| }

  ghost predicate Ascending(ps: seq<nat>) { forall i, j :: 0 <= i < j < |ps| ==> ps[i] < ps[j] }

  /** Where the claimants of a slot stand in the list; a position is a mapping's identity. */
  function Positions(was: seq<Claim>, slot: Slot): (ps: seq<nat>)
    ensures Within(was, ps)
    ensures forall k :: 0 <= k < |ps| ==> SlotOf(was[ps[k]]) == Some(slot)
    ensures forall p: nat :: p < |was| && SlotOf(was[p]) == Some(slot) ==> p in ps
    ensures Ascending(ps)
  {
    if was == [] then []
    else
      var n := |was| - 1;
      var init := Positions(was[..n], slot);
      assert forall p: nat :: p < n ==> was[..n][p] == was[p];
      if SlotOf(was[n]) == Some(slot) then init + [n] else init
  }

  function BestRank(was: seq<Claim>, ps: seq<nat>): (r: nat)
    requires Within(was, ps)
    ensures forall k :: 0 <= k < |ps| ==> Rank(was[ps[k]].how) <= r
    ensures ps != [] ==> exists k :: 0 <= k < |ps| && Rank(was[ps[k]].how) == r
  {
    if ps == [] then 0
    else
      var n := |ps| - 1;
      var rest := BestRank(was, ps[..n]);
      assert forall k :: 0 <= k < n ==> ps[..n][k] == ps[k];
      if n == 0 || Rank(was[ps[n]].how) > rest then Rank(was[ps[n]].how) else rest
  }

  /** The claimants of this rank, or the others. */
  function Ranked(was: seq<Claim>, ps: seq<nat>, rank: nat, at: bool): (r: seq<nat>)
    requires Within(was, ps)
    ensures Within(was, r)
    ensures forall p :: p in r <==> p in ps && p < |was| && (Rank(was[p].how) == rank) == at
    ensures Ascending(ps) ==> Ascending(r)
  {
    if ps == [] then []
    else
      var n := |ps| - 1;
      assert ps == ps[..n] + [ps[n]];
      var init := Ranked(was, ps[..n], rank, at);
      assert Ascending(ps) ==> forall k :: 0 <= k < |init| ==> init[k] < ps[n] by {
        assert forall k :: 0 <= k < |init| ==> init[k] in init;
      }
      if (Rank(was[ps[n]].how) == rank) == at then init + [ps[n]] else init
  }

  function ColumnNames(was: seq<Claim>, ps: seq<nat>): seq<string>
    requires Within(was, ps)
  {
    seq(|ps|, i requires 0 <= i < |ps| => was[ps[i]].column)
  }

  /** What becomes of the claim at `i` among the claimants at `ps`. */
  function Verdict(was: seq<Claim>, ps: seq<nat>, i: nat): Claim
    requires Within(was, ps) && i < |was| && was[i].field.Some?
  {
    var best := BestRank(was, ps);
    var winners, c := Ranked(was, ps, best, true), was[i];
    if Rank(c.how) == best then
      if |winners| > 1 then
        c.(status := if c.status == AutoAccepted then NeedsReview else c.status,
           collision := Some(Collision(c.field.value, c.subject, ColumnNames(was, ps), Contested)))
      else c.(collision := Some(Collision(c.field.value, c.subject, ColumnNames(was, ps), Held(ColumnNames(was, Ranked(was, ps, best, false))))))
    else
      c.(field := None, how := NoEvidence, status := Unmapped, subject := Self,
         collision := Some(Collision(c.field.value, c.subject, ColumnNames(was, ps), Yielded(ColumnNames(was, winners), c.field.value))))
  }

  function Settled(was: seq<Claim>, i: nat): Claim
    requires i < |was|
  {
    if SlotOf(was[i]).None? then was[i]
    else
      var ps := Positions(was, SlotOf(was[i]).value);
      if |ps| < 2 then was[i] else Verdict(was, ps, i)
  }

  /** `_resolve_collisions`, as a function of what the columns claim. */
  function Settle(was: seq<Claim>): (r: seq<Claim>)
    ensures |r| == |was| && forall i :: 0 <= i < |r| ==> r[i] == Settled(was, i)
  {
    seq(|was|, i requires 0 <= i < |was| => Settled(was, i))
  }
}
