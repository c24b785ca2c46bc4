/** Which of several reported values becomes the trusted one. Scores are exact in thousandths. */
module Survivorship {
  import opened Ordering
  import opened Keys

  datatype Strategy = MostReliable | MostRecent | MostFrequent | Earliest

  const AGREEMENT_BONUS := 150
  const DISAGREEMENT_PENALTY := 100
  const MIN_CONFIDENCE := 50
  const MAX_CONFIDENCE := 990

  /** One source's claim about one field of one entity. */
  datatype Observation = Observation(value: string, rawValue: string, sourceId: string, sourceName: string,
                                     reliability: int, recordId: nat, observedAt: int)

  /** A losing value, with who said it. */
  datatype Alternative = Alternative(value: string, sources: seq<string>, supporting: nat)

  datatype Choice = Choice(value: string, rawValue: string, strategy: Strategy, confidence: int, recordId: nat,
                           sourceId: string, supporting: nat, competing: nat,
                           agreeing: seq<string>, alternatives: seq<Alternative>)

  function StrategyFor(entityType: EntityType, field: string): Strategy {
    match entityType
    case Person =>
      if field in {"job_title", "department", "company_name", "address_line1", "address_line2", "city",
                   "state_region", "postal_code", "email_status"} then MostRecent
      else if field in {"full_name", "first_name", "last_name"} then MostFrequent
      else MostReliable
    case Company =>
      if field in {"employee_count", "address_line1", "address_line2", "city", "state_region", "postal_code", "phone"} then MostRecent
      else if field in {"company_name", "legal_name", "sic_code", "sic_description", "naics_code"} then MostFrequent
      else if field == "founded_year" then Earliest
      else MostReliable
  }

  // ---- grouping by value -----------------------------------------------------------

  function Usable(os: seq<Observation>): (r: seq<Observation>)
    ensures forall o :: o in r <==> o in os && o.value != ""
  {
    if os == [] then [] else if os[0].value != "" then [os[0]] + Usable(os[1..]) else Usable(os[1..])
  }

  /** The group of a value, in the order given. */
  function Group(os: seq<Observation>, v: string): (r: seq<Observation>)
    ensures forall o :: o in r <==> o in os && o.value == v
  {
    if os == [] then [] else if os[0].value == v then [os[0]] + Group(os[1..], v) else Group(os[1..], v)
  }

  /** The values that have a group, in order of first appearance. */
  function GroupValues(os: seq<Observation>): (r: seq<string>)
    ensures forall v :: v in r <==> Reported(os, v)
    ensures forall i, j :: 0 <= i < j < |r| ==> r[i] != r[j]
  {
    if os == [] then []
    else
      var n := |os| - 1;
      var init := GroupValues(os[..n]);
      assert forall o :: o in os <==> o in os[..n] || o == os[n];
      assert forall v :: Reported(os, v) <==> Reported(os[..n], v) || v == os[n].value;
      if os[n].value in init then init else init + [os[n].value]
  }

  function Sources(os: seq<Observation>): set<string> { set o | o in os :: o.sourceId }

  function SourceNames(os: seq<Observation>): seq<string> {
    if os == [] then [] else [os[0].sourceName] + SourceNames(os[1..])
  }

  // ---- the tie-break chain ------------------------------------------------------------

  function TiebreakKey(o: Observation): Key {
    [Num(-o.reliability), Num(-o.observedAt), Text(o.sourceName), Text(o.value)]
  }

  function TiebreakKeys(os: seq<Observation>): (r: seq<Key>)
    ensures |r| == |os| && forall i :: 0 <= i < |r| ==> r[i] == TiebreakKey(os[i])
  {
    seq(|os|, i requires 0 <= i < |os| => TiebreakKey(os[i]))
  }

  /** `min(group, key=_tiebreak_key)`. */
  function Strongest(os: seq<Observation>): (o: Observation)
    requires os != []
    ensures o in os && forall p :: p in os ==> KeyLeq(TiebreakKey(o), TiebreakKey(p))
  {
    var i := ArgMin(TiebreakKeys(os));
    assert forall j :: 0 <= j < |os| ==> KeyLeq(TiebreakKeys(os)[i], TiebreakKeys(os)[j]);
    os[i]
  }

  function Timed(o: Observation, sign: int): Key { [Num(sign * o.observedAt)] + TiebreakKey(o) }

  function TimedKeys(os: seq<Observation>, sign: int): (r: seq<Key>)
    ensures |r| == |os| && forall i :: 0 <= i < |r| ==> r[i] == Timed(os[i], sign)
  {
    seq(|os|, i requires 0 <= i < |os| => Timed(os[i], sign))
  }

  predicate Reported(os: seq<Observation>, v: string) { exists o :: o in os && o.value == v }

  /** How a value ranks by votes: distinct sources first, then the chain on its strongest report. */
  function VoteKey(os: seq<Observation>, v: string): Key
    requires Reported(os, v)
  {
    [Num(-|Sources(Group(os, v))|)] + TiebreakKey(Strongest(Group(os, v)))
  }

  function VoteKeys(os: seq<Observation>, vs: seq<string>): (r: seq<Key>)
    requires forall i :: 0 <= i < |vs| ==> Reported(os, vs[i])
    ensures |r| == |vs| && forall i :: 0 <= i < |r| ==> r[i] == VoteKey(os, vs[i])
  {
    seq(|vs|, i requires 0 <= i < |vs| => VoteKey(os, vs[i]))
  }

  /** The groups laid end to end: every observation, in another order. */
  function Everything(os: seq<Observation>, vs: seq<string>): (r: seq<Observation>)
    ensures forall o :: o in r <==> o in os && o.value in vs
  {
    if vs == [] then [] else Group(os, vs[0]) + Everything(os, vs[1..])
  }

  /** `_pick`. */
  function Pick(strategy: Strategy, os: seq<Observation>): Observation
    requires os != []
  {
    assert os[0] in os;
    var values := GroupValues(os);
    assert values != [] by { assert os[0].value in values; }
    if strategy == MostFrequent then
      var best := values[ArgMin(VoteKeys(os, values))];
      assert best in values;
      Strongest(Group(os, best))
    else
      var all := Everything(os, values);
      assert os[0] in all;
      if strategy == MostRecent then all[ArgMin(TimedKeys(all, -1))]
      else if strategy == Earliest then all[ArgMin(TimedKeys(all, 1))]
      else Strongest(all)
  }

  function Dissenting(os: seq<Observation>, winner: string): set<string> {
    set o | o in os && o.value != winner :: o.sourceId
  }

  function Clamp(score: int): int {
    if score < MIN_CONFIDENCE then MIN_CONFIDENCE else if score > MAX_CONFIDENCE then MAX_CONFIDENCE else score
  }

  function Confidence(winner: Observation, supporting: nat, dissenting: nat): int {
    Clamp(winner.reliability + AGREEMENT_BONUS * (supporting - 1) - DISAGREEMENT_PENALTY * dissenting)
  }

  function AlternativesOf(os: seq<Observation>, values: seq<string>, winner: string): seq<Alternative> {
    if values == [] then []
    else if values[0] == winner then AlternativesOf(os, values[1..], winner)
    else
      [Alternative(values[0], SortedSet(SourceNames(Group(os, values[0]))), |Sources(Group(os, values[0]))|)]
      + AlternativesOf(os, values[1..], winner)
  }

  function ChooseAmong(strategy: Strategy, os: seq<Observation>): Choice
    requires os != []
  {
    var winner := Pick(strategy, os);
    var supporting := |Sources(Group(os, winner.value))|;
    Choice(winner.value, winner.rawValue, strategy,
           Confidence(winner, supporting, |Dissenting(os, winner.value)|),
           winner.recordId, winner.sourceId, supporting, |GroupValues(os)|,
           SortedSet(SourceNames(Group(os, winner.value))),
           AlternativesOf(os, SortedSet(GroupValues(os)), winner.value))
  }

  /** `choose`. */
  function Choose(entityType: EntityType, field: string, os: seq<Observation>): Option<Choice> {
    if Usable(os) == [] then None else Some(ChooseAmong(StrategyFor(entityType, field), Usable(os)))
  }

  /** A dictionary of groups, its keys in order of first appearance. */
  datatype Groups = Groups(values: seq<string>, byValue: map<string, seq<Observation>>)

  ghost predicate GroupsOf(g: Groups, os: seq<Observation>) {
    && g.values == GroupValues(os)
    && (forall v :: v in g.byValue <==> v in g.values)
    && (forall v :: v in g.byValue ==> g.byValue[v] == Group(os, v))
  }

  /** `setdefault(value, []).append(obs)`. */
  function Filed(g: Groups, o: Observation): Groups {
    if o.value in g.byValue then g.(byValue := g.byValue[o.value := g.byValue[o.value] + [o]])
    else Groups(g.values + [o.value], g.byValue[o.value := [o]])
  }

  lemma GroupValuesAppend(os: seq<Observation>, o: Observation)
    ensures GroupValues(os + [o]) == if o.value in GroupValues(os) then GroupValues(os) else GroupValues(os) + [o.value]
  {
    assert (os + [o])[..|os|] == os;
  }

  lemma GroupIsReported(os: seq<Observation>, v: string)
    ensures Group(os, v) != [] ==> v in GroupValues(os)
  {
    if Group(os, v) != [] { assert Group(os, v)[0] in Group(os, v); }
  }

  lemma FiledIsGroups(g: Groups, os: seq<Observation>, o: Observation)
    requires GroupsOf(g, os)
    ensures GroupsOf(Filed(g, o), os + [o])
  {
    hide GroupValues, Group;
    GroupValuesAppend(os, o);
    GroupIsReported(os, o.value);
    forall v | v in Filed(g, o).byValue ensures Filed(g, o).byValue[v] == Group(os + [o], v) {
      GroupAppend(os, o, v);
    }
  }

  /** `_group_by_value` as the code builds it, in one pass. */
  method GroupByValue(os: seq<Observation>) returns (g: Groups)
    ensures GroupsOf(g, os)
  {
    g := Groups([], map[]);
    for i := 0 to |os|
      invariant GroupsOf(g, os[..i])
    {
      assert os[..i + 1] == os[..i] + [os[i]];
      FiledIsGroups(g, os[..i], os[i]);
      if os[i].value in g.byValue {
        g := g.(byValue := g.byValue[os[i].value := g.byValue[os[i].value] + [os[i]]]);
      } else {
        g := Groups(g.values + [os[i].value], g.byValue[os[i].value := [os[i]]]);
      }
    }
    assert os[..|os|] == os;
  }

  lemma {:induction false} GroupAppend(os: seq<Observation>, o: Observation, v: string)
    ensures Group(os + [o], v) == Group(os, v) + (if o.value == v then [o] else [])
  {
    if os == [] {
      assert os + [o] == [o] && [o][1..] == [];
    } else {
      assert (os + [o])[1..] == os[1..] + [o];
      GroupAppend(os[1..], o, v);
    }
  }

  // ---- the winner is a lexicographic minimum ----------------------------------------------

  /** What a strategy minimises, for any observation: one tuple, the same four-step chain at its end. */
  function StrategyKey(strategy: Strategy, os: seq<Observation>, o: Observation): Key {
    var lead := match strategy
      case MostReliable => 0
      case MostRecent => -o.observedAt
      case Earliest => o.observedAt
      case MostFrequent => -|Sources(Group(os, o.value))|;
    [Num(lead)] + TiebreakKey(o)
  }

  lemma TimedIsLeast(all: seq<Observation>, sign: int)
    requires all != []
    ensures all[ArgMin(TimedKeys(all, sign))] in all
    ensures forall p :: p in all ==> KeyLeq(Timed(all[ArgMin(TimedKeys(all, sign))], sign), Timed(p, sign))
  {
    var keys := TimedKeys(all, sign);
    forall p | p in all ensures KeyLeq(Timed(all[ArgMin(keys)], sign), Timed(p, sign)) {
      var j :| 0 <= j < |all| && all[j] == p;
      assert KeyLeq(keys[ArgMin(keys)], keys[j]);
    }
  }

  lemma EverythingIsAll(os: seq<Observation>)
    requires os != []
    ensures forall p :: p in Everything(os, GroupValues(os)) <==> p in os
    ensures Everything(os, GroupValues(os)) != []
  {
    assert forall p :: p in os ==> Reported(os, p.value);
    assert os[0] in os;
    assert os[0] in Everything(os, GroupValues(os));
  }

  /**
   * Under every strategy, including the vote whose code first picks a value and then a report, the
   * winner is the least observation in one fixed order: the strategy's measure, then reliability,
   * recency, source name and value.
   */
  lemma WinnerIsLeast(strategy: Strategy, os: seq<Observation>)
    requires os != []
    ensures Pick(strategy, os) in os
    ensures forall p :: p in os ==> KeyLeq(StrategyKey(strategy, os, Pick(strategy, os)), StrategyKey(strategy, os, p))
  {
    match strategy
    case MostFrequent => VoteWinnerIsLeast(os);
    case MostRecent => RecentWinnerIsLeast(os);
    case Earliest => EarliestWinnerIsLeast(os);
    case MostReliable => TrustWinnerIsLeast(os);
  }

  lemma RecentWinnerIsLeast(os: seq<Observation>)
    requires os != []
    ensures Pick(MostRecent, os) in os
    ensures forall p :: p in os ==> KeyLeq(StrategyKey(MostRecent, os, Pick(MostRecent, os)), StrategyKey(MostRecent, os, p))
  {
    hide GroupValues, Everything, TiebreakKey;
    EverythingIsAll(os);
    TimedIsLeast(Everything(os, GroupValues(os)), -1);
  }

  lemma EarliestWinnerIsLeast(os: seq<Observation>)
    requires os != []
    ensures Pick(Earliest, os) in os
    ensures forall p :: p in os ==> KeyLeq(StrategyKey(Earliest, os, Pick(Earliest, os)), StrategyKey(Earliest, os, p))
  {
    EverythingIsAll(os);
    TimedIsLeast(Everything(os, GroupValues(os)), 1);
  }

  lemma TrustWinnerIsLeast(os: seq<Observation>)
    requires os != []
    ensures Pick(MostReliable, os) in os
    ensures forall p :: p in os ==> KeyLeq(StrategyKey(MostReliable, os, Pick(MostReliable, os)), StrategyKey(MostReliable, os, p))
  {
    EverythingIsAll(os);
    var w := Pick(MostReliable, os);
    forall p | p in os ensures KeyLeq(StrategyKey(MostReliable, os, w), StrategyKey(MostReliable, os, p)) {
      KeyLeqTail(Num(0), TiebreakKey(w), TiebreakKey(p));
    }
  }

  /** The value with the best vote, and the strongest report of it. */
  lemma VoteWinnerIs(os: seq<Observation>)
    requires os != []
    ensures var w := Pick(MostFrequent, os);
      && w in os && Reported(os, w.value) && w == Strongest(Group(os, w.value))
      && forall v :: Reported(os, v) ==> KeyLeq(VoteKey(os, w.value), VoteKey(os, v))
  {
    var values := GroupValues(os);
    assert os[0] in os && Reported(os, os[0].value) && os[0].value in values;
    var keys := VoteKeys(os, values);
    var best := values[ArgMin(keys)];
    assert best in values && Reported(os, best);
    forall v | Reported(os, v) ensures KeyLeq(VoteKey(os, best), VoteKey(os, v)) {
      assert v in values;
      var j :| 0 <= j < |values| && values[j] == v;
      assert KeyLeq(keys[ArgMin(keys)], keys[j]);
    }
  }

  lemma VoteWinnerIsLeast(os: seq<Observation>)
    requires os != []
    ensures Pick(MostFrequent, os) in os
    ensures forall p :: p in os ==>
      KeyLeq(StrategyKey(MostFrequent, os, Pick(MostFrequent, os)), StrategyKey(MostFrequent, os, p))
  {
    var w := Pick(MostFrequent, os);
    VoteWinnerIs(os);
    forall p | p in os ensures KeyLeq(StrategyKey(MostFrequent, os, w), StrategyKey(MostFrequent, os, p)) {
      assert Reported(os, p.value) && p in Group(os, p.value);
      KeyLeqTail(Num(-|Sources(Group(os, p.value))|), TiebreakKey(Strongest(Group(os, p.value))), TiebreakKey(p));
      KeyLeqTransitive(VoteKey(os, w.value), VoteKey(os, p.value), StrategyKey(MostFrequent, os, p));
    }
  }

  // ---- the choice sees neither order nor repetition ------------------------------------------

  /** What a report claims, without which record carried it or how it was spelled. */
  datatype Claim = Claim(value: string, sourceId: string, sourceName: string, reliability: int, observedAt: int)

  function ClaimOf(o: Observation): Claim { Claim(o.value, o.sourceId, o.sourceName, o.reliability, o.observedAt) }

  function Claims(os: seq<Observation>): set<Claim> { set o | o in os :: ClaimOf(o) }

  ghost predicate SameClaims(a: seq<Observation>, b: seq<Observation>) { Claims(a) == Claims(b) }

  lemma ClaimsTell(os: seq<Observation>, v: string)
    ensures Sources(os) == set c | c in Claims(os) :: c.sourceId
    ensures Dissenting(os, v) == set c | c in Claims(os) && c.value != v :: c.sourceId
    ensures Claims(Group(os, v)) == set c | c in Claims(os) && c.value == v
    ensures Claims(Usable(os)) == set c | c in Claims(os) && c.value != ""
    ensures Reported(os, v) <==> exists c :: c in Claims(os) && c.value == v
  {
    forall c | c in Claims(os)
      ensures c.sourceId in Sources(os)
      ensures c.value != v ==> c.sourceId in Dissenting(os, v)
      ensures c.value == v ==> c in Claims(Group(os, v)) && Reported(os, v)
      ensures c.value != "" ==> c in Claims(Usable(os))
    {
      var o :| o in os && ClaimOf(o) == c;
    }
    forall o | o in os ensures ClaimOf(o) in Claims(os) {}
  }

  /** Everything a choice says except which record and raw spelling happened to carry it. */
  ghost predicate SameOutcome(a: Choice, b: Choice) {
    && a.value == b.value && a.strategy == b.strategy && a.confidence == b.confidence
    && a.supporting == b.supporting && a.competing == b.competing
    && a.agreeing == b.agreeing && a.alternatives == b.alternatives
  }

  lemma SameClaimsInGroups(a: seq<Observation>, b: seq<Observation>, v: string)
    requires SameClaims(a, b)
    ensures SameClaims(Group(a, v), Group(b, v))
    ensures Sources(Group(a, v)) == Sources(Group(b, v))
    ensures Dissenting(a, v) == Dissenting(b, v)
    ensures Reported(a, v) <==> Reported(b, v)
  {
    ClaimsTell(a, v);
    ClaimsTell(b, v);
    ClaimsTell(Group(a, v), v);
    ClaimsTell(Group(b, v), v);
  }

  lemma {:induction false} SourceNamesAre(os: seq<Observation>)
    ensures forall n :: n in SourceNames(os) <==> exists c :: c in Claims(os) && c.sourceName == n
  {
    if os == [] {
      assert Claims(os) == {};
    } else {
      SourceNamesAre(os[1..]);
      assert Claims(os) == {ClaimOf(os[0])} + Claims(os[1..]) by {
        assert forall o :: o in os <==> o == os[0] || o in os[1..];
        assert os[0] in os;
      }
    }
  }

  lemma SameClaimsSameNames(a: seq<Observation>, b: seq<Observation>)
    requires SameClaims(a, b)
    ensures SortedSet(SourceNames(a)) == SortedSet(SourceNames(b))
  {
    SourceNamesAre(a);
    SourceNamesAre(b);
    SortedSetDependsOnElements(SourceNames(a), SourceNames(b));
  }

  lemma {:induction false} DistinctLength(a: seq<string>, b: seq<string>)
    requires forall i, j :: 0 <= i < j < |a| ==> a[i] != a[j]
    requires forall i, j :: 0 <= i < j < |b| ==> b[i] != b[j]
    requires forall v :: v in a <==> v in b
    ensures |a| == |b|
  {
    assert b != [] ==> b[0] in a;
    if a != [] {
      assert a[0] in b;
      var i :| 0 <= i < |b| && b[i] == a[0];
      var rest := b[..i] + b[i + 1..];
      forall v ensures v in a[1..] <==> v in rest {
        if v in a[1..] {
          assert v in b && v != b[i];
        }
        if v in rest { assert v in b && v != a[0]; assert v in a; }
      }
      DistinctLength(a[1..], rest);
    }
  }

  lemma SameClaimsSameValues(a: seq<Observation>, b: seq<Observation>)
    requires SameClaims(a, b)
    ensures |GroupValues(a)| == |GroupValues(b)|
    ensures SortedSet(GroupValues(a)) == SortedSet(GroupValues(b))
  {
    forall v ensures v in GroupValues(a) <==> v in GroupValues(b) { SameClaimsInGroups(a, b, v); }
    DistinctLength(GroupValues(a), GroupValues(b));
    SortedSetDependsOnElements(GroupValues(a), GroupValues(b));
  }

  lemma {:induction false} SameClaimsSameAlternatives(a: seq<Observation>, b: seq<Observation>, values: seq<string>, winner: string)
    requires SameClaims(a, b)
    ensures AlternativesOf(a, values, winner) == AlternativesOf(b, values, winner)
  {
    if values != [] {
      SameClaimsInGroups(a, b, values[0]);
      SameClaimsSameNames(Group(a, values[0]), Group(b, values[0]));
      SameClaimsSameAlternatives(a, b, values[1..], winner);
    }
  }

  lemma SameClaimSameKey(strategy: Strategy, a: seq<Observation>, b: seq<Observation>, o: Observation, p: Observation)
    requires SameClaims(a, b) && ClaimOf(o) == ClaimOf(p)
    ensures StrategyKey(strategy, a, o) == StrategyKey(strategy, b, p)
  {
    SameClaimsInGroups(a, b, o.value);
  }

  lemma StrategyKeyTells(strategy: Strategy, a: seq<Observation>, b: seq<Observation>, o: Observation, p: Observation)
    requires StrategyKey(strategy, a, o) == StrategyKey(strategy, b, p)
    ensures o.value == p.value && o.reliability == p.reliability && o.observedAt == p.observedAt && o.sourceName == p.sourceName
  {
    var x, y := StrategyKey(strategy, a, o), StrategyKey(strategy, b, p);
    assert x[1] == y[1] && x[2] == y[2] && x[3] == y[3] && x[4] == y[4];
  }

  /** A winner of one list is matched in the other, so it ranks no better there than the winner does. */
  lemma WinnerBeatsClaims(strategy: Strategy, a: seq<Observation>, b: seq<Observation>)
    requires a != [] && b != [] && SameClaims(a, b)
    ensures KeyLeq(StrategyKey(strategy, b, Pick(strategy, b)), StrategyKey(strategy, a, Pick(strategy, a)))
  {
    var w := Pick(strategy, a);
    WinnerIsLeast(strategy, a);
    WinnerIsLeast(strategy, b);
    assert ClaimOf(w) in Claims(b);
    var p :| p in b && ClaimOf(p) == ClaimOf(w);
    SameClaimSameKey(strategy, a, b, w, p);
  }

  lemma SameClaimsSameWinner(strategy: Strategy, a: seq<Observation>, b: seq<Observation>)
    requires a != [] && b != [] && SameClaims(a, b)
    ensures Pick(strategy, a).value == Pick(strategy, b).value
    ensures Pick(strategy, a).reliability == Pick(strategy, b).reliability
  {
    WinnerBeatsClaims(strategy, a, b);
    WinnerBeatsClaims(strategy, b, a);
    KeyLeqAntisymmetric(StrategyKey(strategy, a, Pick(strategy, a)), StrategyKey(strategy, b, Pick(strategy, b)));
    StrategyKeyTells(strategy, a, b, Pick(strategy, a), Pick(strategy, b));
  }

  lemma ChooseAmongIgnoresOrder(strategy: Strategy, a: seq<Observation>, b: seq<Observation>)
    requires a != [] && b != [] && SameClaims(a, b)
    ensures SameOutcome(ChooseAmong(strategy, a), ChooseAmong(strategy, b))
  {
    hide Pick, Group, AlternativesOf, GroupValues, SortedSet, Sources, SourceNames, Dissenting;
    SameClaimsSameWinner(strategy, a, b);
    var v := Pick(strategy, a).value;
    SameClaimsInGroups(a, b, v);
    SameClaimsSameNames(Group(a, v), Group(b, v));
    SameClaimsSameValues(a, b);
    SameClaimsSameAlternatives(a, b, SortedSet(GroupValues(a)), v);
  }

  /**
   * Survivorship is a function of what was claimed: any two lists making the same claims, in any order
   * and however often, choose the same value by the same rule with the same confidence, the same counts
   * and the same account of who agreed and what lost.
   */
  lemma ChoiceIgnoresOrder(entityType: EntityType, field: string, a: seq<Observation>, b: seq<Observation>)
    requires SameClaims(a, b)
    ensures var x, y := Choose(entityType, field, a), Choose(entityType, field, b);
      x.Some? == y.Some? && (x.Some? ==> SameOutcome(x.value, y.value))
  {
    var ua, ub := Usable(a), Usable(b);
    ClaimsTell(a, "");
    ClaimsTell(b, "");
    assert ua != [] ==> ClaimOf(ua[0]) in Claims(ub);
    assert ub != [] ==> ClaimOf(ub[0]) in Claims(ua);
    if ua != [] {
      ChooseAmongIgnoresOrder(StrategyFor(entityType, field), ua, ub);
    }
  }

  /** In particular a permutation changes nothing. */
  lemma PermutationsChooseAlike(entityType: EntityType, field: string, a: seq<Observation>, b: seq<Observation>)
    requires multiset(a) == multiset(b)
    ensures var x, y := Choose(entityType, field, a), Choose(entityType, field, b);
      x.Some? == y.Some? && (x.Some? ==> SameOutcome(x.value, y.value))
  {
    forall o ensures o in a <==> o in b {
      assert o in a <==> o in multiset(a);
      assert o in b <==> o in multiset(b);
    }
    assert Claims(a) == Claims(b);
    ChoiceIgnoresOrder(entityType, field, a, b);
  }

  // ---- what the counts count ----------------------------------------------------------------------

  function Values(os: seq<Observation>): set<string> { set o | o in os :: o.value }

  lemma {:induction false} GroupCount(os: seq<Observation>)
    ensures |GroupValues(os)| == |Values(os)|
    ensures forall v :: v in GroupValues(os) <==> v in Values(os)
  {
    var vs := GroupValues(os);
    assert forall v :: v in vs <==> v in Values(os);
    DistinctSize(vs, Values(os));
  }

  lemma {:induction false} DistinctSize(vs: seq<string>, all: set<string>)
    requires forall i, j :: 0 <= i < j < |vs| ==> vs[i] != vs[j]
    requires forall v :: v in vs <==> v in all
    ensures |vs| == |all|
  {
    if vs == [] {
      assert all == {};
    } else {
      var n := |vs| - 1;
      assert vs == vs[..n] + [vs[n]];
      assert vs[n] in all && vs[n] !in vs[..n];
      DistinctSize(vs[..n], all - {vs[n]});
    }
  }

  lemma CountsAmong(strategy: Strategy, os: seq<Observation>)
    requires os != []
    ensures var c, w := ChooseAmong(strategy, os), Pick(strategy, os);
      && w in os && c.value == w.value
      && c.supporting == |Sources(Group(os, c.value))| && c.competing == |Values(os)|
      && c.alternatives == AlternativesOf(os, SortedSet(GroupValues(os)), c.value)
  {
    WinnerIsLeast(strategy, os);
    hide Pick, AlternativesOf, StrategyKey;
    GroupCount(os);
  }

  lemma UsableSays(os: seq<Observation>, v: string)
    ensures Values(Usable(os)) == set o | o in os && o.value != "" :: o.value
    ensures v != "" ==> Sources(Group(Usable(os), v)) == set o | o in os && o.value == v :: o.sourceId
    ensures v in GroupValues(Usable(os)) <==> v != "" && Reported(os, v)
  {
    var u := Usable(os);
    if Reported(os, v) && v != "" { var o :| o in os && o.value == v; assert o in u; }
    if v in GroupValues(u) { assert Reported(u, v); var o :| o in u && o.value == v; assert o in os; }
  }

  /**
   * The reported counts, said without groups: how many vendors report the winning value, how many distinct
   * values were reported, and as alternatives every other value once, in ascending order.
   */
  lemma ChoiceCounts(entityType: EntityType, field: string, os: seq<Observation>)
    requires Choose(entityType, field, os).Some?
    ensures var c := Choose(entityType, field, os).value;
      && c.value != ""
      && c.supporting == |set o | o in os && o.value == c.value :: o.sourceId|
      && c.competing == |set o | o in os && o.value != "" :: o.value|
      && StrictlyAscending(AlternativeValues(c.alternatives))
      && (forall v :: v in AlternativeValues(c.alternatives) <==> v != c.value && v != "" && Reported(os, v))
  {
    hide ChooseAmong, Usable, GroupValues, Group, AlternativesOf, SortedSet, Pick;
    var u, strategy := Usable(os), StrategyFor(entityType, field);
    var c := ChooseAmong(strategy, u);
    CountsAmong(strategy, u);
    UsableSays(os, c.value);
    AlternativesAre(u, SortedSet(GroupValues(u)), c.value);
    forall v ensures v in AlternativeValues(c.alternatives) <==> v != c.value && v != "" && Reported(os, v) {
      UsableSays(os, v);
    }
  }

  function AlternativeValues(alternatives: seq<Alternative>): seq<string> {
    if alternatives == [] then [] else [alternatives[0].value] + AlternativeValues(alternatives[1..])
  }

  lemma {:induction false} AlternativesAre(os: seq<Observation>, values: seq<string>, winner: string)
    requires StrictlyAscending(values)
    ensures StrictlyAscending(AlternativeValues(AlternativesOf(os, values, winner)))
    ensures forall v :: v in AlternativeValues(AlternativesOf(os, values, winner)) <==> v in values && v != winner
  {
    if values != [] {
      var rest := AlternativesOf(os, values[1..], winner);
      AlternativesAre(os, values[1..], winner);
      assert forall v :: v in values <==> v == values[0] || v in values[1..];
      assert forall v :: v in values[1..] ==> TextLeq(values[0], v) && values[0] != v;
      if values[0] != winner {
        var all := AlternativesOf(os, values, winner);
        assert all[1..] == rest;
        var later := AlternativeValues(rest);
        assert forall k :: 0 <= k < |later| ==> later[k] in later;
      }
    }
  }

  // ---- confidence -------------------------------------------------------------------------------

  lemma ConfidenceIsBounded(entityType: EntityType, field: string, os: seq<Observation>)
    ensures Choose(entityType, field, os).Some? <==> exists o :: o in os && o.value != ""
    ensures Choose(entityType, field, os).Some? ==>
      MIN_CONFIDENCE <= Choose(entityType, field, os).value.confidence <= MAX_CONFIDENCE
  {
    assert Usable(os) != [] ==> Usable(os)[0] in Usable(os);
  }

  lemma ChainTells(o: Observation, p: Observation)
    requires KeyLeq(TiebreakKey(o), TiebreakKey(p))
    ensures o.reliability >= p.reliability
  {
  }

  lemma LeadTells(strategy: Strategy, os: seq<Observation>, o: Observation, p: Observation)
    requires KeyLeq(StrategyKey(strategy, os, o), StrategyKey(strategy, os, p))
    ensures StrategyKey(strategy, os, o)[0].n <= StrategyKey(strategy, os, p)[0].n
    ensures StrategyKey(strategy, os, o)[0].n == StrategyKey(strategy, os, p)[0].n ==> KeyLeq(TiebreakKey(o), TiebreakKey(p))
  {
    assert StrategyKey(strategy, os, o)[1..] == TiebreakKey(o) && StrategyKey(strategy, os, p)[1..] == TiebreakKey(p);
  }

  lemma GroupsAfter(os: seq<Observation>, o: Observation, v: string)
    ensures Sources(Group(os + [o], v)) == if o.value == v then Sources(Group(os, v)) + {o.sourceId} else Sources(Group(os, v))
    ensures Dissenting(os + [o], v) == if o.value == v then Dissenting(os, v) else Dissenting(os, v) + {o.sourceId}
  {
    GroupAppend(os, o, v);
  }

  /** The newcomer's own rank aside, its arrival moves only the vote for its own value. */
  lemma KeysAfter(strategy: Strategy, os: seq<Observation>, o: Observation, p: Observation)
    requires o.sourceId !in Sources(os)
    ensures strategy != MostFrequent || p.value != o.value ==>
      StrategyKey(strategy, os + [o], p) == StrategyKey(strategy, os, p)
    ensures strategy == MostFrequent && p.value == o.value ==>
      StrategyKey(strategy, os + [o], p)[0].n == StrategyKey(strategy, os, p)[0].n - 1
  {
    GroupsAfter(os, o, p.value);
    assert o.sourceId !in Sources(Group(os, p.value));
  }

  lemma SourcesAfter(os: seq<Observation>, o: Observation)
    requires o.sourceId !in Sources(os)
    ensures |Sources(Group(os + [o], o.value))| == |Sources(Group(os, o.value))| + 1
    ensures Dissenting(os + [o], o.value) == Dissenting(os, o.value)
  {
    GroupsAfter(os, o, o.value);
    assert o.sourceId !in Sources(Group(os, o.value));
  }

  /** The old winner and the new one, each no worse than the other where it won. */
  lemma AgreementRanks(strategy: Strategy, os: seq<Observation>, o: Observation)
    requires os != []
    ensures var w, w2 := Pick(strategy, os), Pick(strategy, os + [o]);
      && w in os && (w2 == o || w2 in os)
      && KeyLeq(StrategyKey(strategy, os + [o], w2), StrategyKey(strategy, os + [o], w))
      && KeyLeq(StrategyKey(strategy, os + [o], w2), StrategyKey(strategy, os + [o], o))
      && (w2 in os ==> KeyLeq(StrategyKey(strategy, os, w), StrategyKey(strategy, os, w2)))
  {
    WinnerIsLeast(strategy, os);
    WinnerIsLeast(strategy, os + [o]);
    assert Pick(strategy, os) in os + [o] && o in os + [o];
  }

  /** One more source agreeing keeps the value, whatever the strategy. */
  lemma AgreementKeepsValue(strategy: Strategy, os: seq<Observation>, o: Observation)
    requires os != [] && o.value == Pick(strategy, os).value && o.sourceId !in Sources(os)
    ensures Pick(strategy, os + [o]).value == o.value
  {
    var w, w2 := Pick(strategy, os), Pick(strategy, os + [o]);
    AgreementRanks(strategy, os, o);
    KeysAfter(strategy, os, o, w);
    KeysAfter(strategy, os, o, w2);
    if w2 != o && w2.value != o.value {
      if strategy == MostFrequent {
        LeadTells(strategy, os + [o], w2, w);
        LeadTells(strategy, os, w, w2);
      } else {
        KeyLeqAntisymmetric(StrategyKey(strategy, os, w), StrategyKey(strategy, os, w2));
        StrategyKeyTells(strategy, os, os, w, w2);
      }
    }
  }

  lemma AgreementKeepsTrust(strategy: Strategy, os: seq<Observation>, o: Observation)
    requires os != [] && o.value == Pick(strategy, os).value && o.sourceId !in Sources(os)
    requires strategy in {MostReliable, MostFrequent}
    ensures Pick(strategy, os + [o]).reliability >= Pick(strategy, os).reliability
  {
    var w, w2 := Pick(strategy, os), Pick(strategy, os + [o]);
    AgreementKeepsValue(strategy, os, o);
    AgreementRanks(strategy, os, o);
    LeadTells(strategy, os + [o], w2, w);
    ChainTells(w2, w);
  }

  /** The score before it is clamped. */
  function RawScore(strategy: Strategy, os: seq<Observation>): int
    requires os != []
  {
    var w := Pick(strategy, os);
    w.reliability + AGREEMENT_BONUS * (|Sources(Group(os, w.value))| - 1) - DISAGREEMENT_PENALTY * |Dissenting(os, w.value)|
  }

  lemma ChosenFields(strategy: Strategy, os: seq<Observation>)
    requires os != []
    ensures var c, w := ChooseAmong(strategy, os), Pick(strategy, os);
      c.value == w.value && c.supporting == |Sources(Group(os, w.value))| && c.confidence == Clamp(RawScore(strategy, os))
  {
  }

  /** An agreeing new source brings the bonus, and whatever the change of winning report costs or gains. */
  lemma AgreementScore(strategy: Strategy, os: seq<Observation>, o: Observation)
    requires os != [] && o.value == Pick(strategy, os).value && o.sourceId !in Sources(os)
    ensures RawScore(strategy, os + [o]) - RawScore(strategy, os) ==
      AGREEMENT_BONUS + Pick(strategy, os + [o]).reliability - Pick(strategy, os).reliability
  {
    hide Pick, Group, Dissenting, Sources;
    AgreementKeepsValue(strategy, os, o);
    SourcesAfter(os, o);
  }

  /**
   * For the fields decided by trust or by votes, an agreeing new source keeps the value, adds itself to
   * the support and never lowers the confidence.
   */
  lemma AgreementNeverLowersConfidence(strategy: Strategy, os: seq<Observation>, o: Observation)
    requires os != [] && o.value == Pick(strategy, os).value && o.sourceId !in Sources(os)
    requires strategy in {MostReliable, MostFrequent}
    ensures var before, after := ChooseAmong(strategy, os), ChooseAmong(strategy, os + [o]);
      && after.value == before.value
      && after.supporting == before.supporting + 1
      && after.confidence >= before.confidence
  {
    hide ChooseAmong, Pick, RawScore, Group, Sources;
    AgreementKeepsValue(strategy, os, o);
    AgreementKeepsTrust(strategy, os, o);
    AgreementScore(strategy, os, o);
    SourcesAfter(os, o);
    ChosenFields(strategy, os);
    ChosenFields(strategy, os + [o]);
  }

  /**
   * For the fields decided by time the value is kept too, but its confidence falls exactly when the
   * newcomer becomes the report of record, is trusted less by more than the bonus it brings, and the
   * limits do not hide it: the score was above the floor and ends below the ceiling.
   */
  lemma TimedAgreementLowersConfidenceIff(strategy: Strategy, os: seq<Observation>, o: Observation)
    requires os != [] && o.value == Pick(strategy, os).value && o.sourceId !in Sources(os)
    requires strategy in {MostRecent, Earliest}
    ensures ChooseAmong(strategy, os + [o]).value == ChooseAmong(strategy, os).value
    ensures ChooseAmong(strategy, os + [o]).confidence < ChooseAmong(strategy, os).confidence <==>
      && !KeyLeq(StrategyKey(strategy, os, Pick(strategy, os)), StrategyKey(strategy, os, o))
      && o.reliability + AGREEMENT_BONUS < Pick(strategy, os).reliability
      && RawScore(strategy, os) > MIN_CONFIDENCE
      && RawScore(strategy, os) + AGREEMENT_BONUS + o.reliability - Pick(strategy, os).reliability < MAX_CONFIDENCE
  {
    hide ChooseAmong, Pick, RawScore, Group, Sources, StrategyKey, KeyLeq;
    AgreementKeepsValue(strategy, os, o);
    AgreementScore(strategy, os, o);
    TimedWinnerAfter(strategy, os, o);
    ChosenFields(strategy, os);
    ChosenFields(strategy, os + [o]);
  }

  /** By time, the newcomer takes over exactly when it ranks first; otherwise an equal of the old winner stays. */
  lemma TimedWinnerAfter(strategy: Strategy, os: seq<Observation>, o: Observation)
    requires os != [] && strategy in {MostRecent, Earliest}
    ensures var w, w2 := Pick(strategy, os), Pick(strategy, os + [o]);
      w2.reliability ==
        if KeyLeq(StrategyKey(strategy, os, w), StrategyKey(strategy, os, o)) then w.reliability else o.reliability
  {
    var w, w2 := Pick(strategy, os), Pick(strategy, os + [o]);
    AgreementRanks(strategy, os, o);
    assert forall p :: StrategyKey(strategy, os + [o], p) == StrategyKey(strategy, os, p);
    var kw, kw2, ko := StrategyKey(strategy, os, w), StrategyKey(strategy, os, w2), StrategyKey(strategy, os, o);
    if KeyLeq(kw, ko) {
      KeyLeqAntisymmetric(kw, kw2);
      StrategyKeyTells(strategy, os, os, w, w2);
    } else if w2 != o {
      KeyLeqTransitive(kw, kw2, ko);
    }
  }

  /** A city confirmed later by a less trusted vendor: the city stays, the confidence drops from 0.9 to 0.25. */
  lemma LaterAgreementCanLowerConfidence()
    ensures var first := Observation("Bath", "Bath", "a", "a", 900, 1, 0);
      var later := Observation("Bath", "Bath", "b", "b", 100, 2, 1);
      && ChooseAmong(StrategyFor(Company, "city"), [first]).confidence == 900
      && ChooseAmong(StrategyFor(Company, "city"), [first, later]).confidence == 250
  {
    var first := Observation("Bath", "Bath", "a", "a", 900, 1, 0);
    var later := Observation("Bath", "Bath", "b", "b", 100, 2, 1);
    assert [first] + [later] == [first, later];
    OneReportScores(MostRecent, first);
    assert !KeyLeq(StrategyKey(MostRecent, [first], first), StrategyKey(MostRecent, [first], later));
    TimedWinnerAfter(MostRecent, [first], later);
    AgreementScore(MostRecent, [first], later);
    ChosenFields(MostRecent, [first]);
    ChosenFields(MostRecent, [first, later]);
  }

  /**
   * A report of another value costs the winner one penalty if its vendor had not contradicted the winner
   * before, and nothing if it had: a vendor that disagrees with itself is one disagreement.
   */
  lemma DissentCostsOncePerSource(strategy: Strategy, os: seq<Observation>, o: Observation)
    requires os != [] && Pick(strategy, os + [o]) == Pick(strategy, os) && o.value != Pick(strategy, os).value
    ensures ChooseAmong(strategy, os + [o]).value == ChooseAmong(strategy, os).value
    ensures ChooseAmong(strategy, os + [o]).confidence == Clamp(RawScore(strategy, os) -
      (if o.sourceId in Dissenting(os, Pick(strategy, os).value) then 0 else DISAGREEMENT_PENALTY))
  {
    hide ChooseAmong, Pick, RawScore;
    var v := Pick(strategy, os).value;
    GroupsAfter(os, o, v);
    DissentScore(strategy, os, o);
    ChosenFields(strategy, os);
    ChosenFields(strategy, os + [o]);
  }

  lemma DissentScore(strategy: Strategy, os: seq<Observation>, o: Observation)
    requires os != [] && Pick(strategy, os + [o]) == Pick(strategy, os)
    requires var v := Pick(strategy, os).value;
      && Sources(Group(os + [o], v)) == Sources(Group(os, v)) && Dissenting(os + [o], v) == Dissenting(os, v) + {o.sourceId}
    ensures RawScore(strategy, os + [o]) == RawScore(strategy, os) -
      (if o.sourceId in Dissenting(os, Pick(strategy, os).value) then 0 else DISAGREEMENT_PENALTY)
  {
    hide Pick, Group, Dissenting, Sources;
    var before := Dissenting(os, Pick(strategy, os).value);
    if o.sourceId in before {
      assert before + {o.sourceId} == before;
    } else {
      assert |before + {o.sourceId}| == |before| + 1;
    }
  }

  /** A value one report stands for is worth what its vendor is. */
  lemma OneReportScores(strategy: Strategy, o: Observation)
    ensures Pick(strategy, [o]) == o && RawScore(strategy, [o]) == o.reliability && Sources([o]) == {o.sourceId}
  {
    WinnerIsLeast(strategy, [o]);
    assert Pick(strategy, [o]) in [o];
    assert [o][1..] == [] && Group([o], o.value) == [o];
    assert Sources([o]) == {o.sourceId} && Dissenting([o], o.value) == {};
  }

  /** More reports from vendors already behind a value change no vote. */
  lemma {:induction false} RepeatsChangeNoVote(os: seq<Observation>, extra: seq<Observation>, v: string)
    requires forall e :: e in extra ==> e.sourceId in Sources(Group(os, e.value))
    ensures Sources(Group(os + extra, v)) == Sources(Group(os, v))
    decreases |extra|
  {
    if extra == [] {
      assert os + extra == os;
    } else {
      var n := |extra| - 1;
      RepeatsChangeNoVote(os, extra[..n], v);
      assert os + extra == (os + extra[..n]) + [extra[n]];
      assert extra[n] in extra;
      GroupsAfter(os + extra[..n], extra[n], v);
    }
  }

  /**
   * One vendor repeating itself is one opinion: a value with strictly the most sources behind it wins
   * the vote, and goes on winning it however often vendors repeat what they already said.
   */
  lemma RepeatsCannotUnseat(os: seq<Observation>, extra: seq<Observation>, v: string)
    requires Reported(os, v)
    requires forall u :: Reported(os, u) && u != v ==> |Sources(Group(os, u))| < |Sources(Group(os, v))|
    requires forall e :: e in extra ==> e.sourceId in Sources(Group(os, e.value))
    ensures os + extra != [] && Pick(MostFrequent, os + extra).value == v
    ensures ChooseAmong(MostFrequent, os + extra).supporting == |Sources(Group(os, v))|
  {
    var all := os + extra;
    assert Reported(all, v) by {
      var o :| o in os && o.value == v;
      assert o in all;
    }
    VoteWinnerHasMostSources(all, v);
    var w := Pick(MostFrequent, all);
    RepeatsChangeNoVote(os, extra, v);
    RepeatsChangeNoVote(os, extra, w.value);
    assert w in Group(all, w.value);
    assert w.sourceId in Sources(Group(os, w.value));
    assert Reported(os, w.value);
  }

  lemma VoteWinnerHasMostSources(os: seq<Observation>, v: string)
    requires Reported(os, v)
    ensures os != [] && Pick(MostFrequent, os) in os
    ensures |Sources(Group(os, Pick(MostFrequent, os).value))| >= |Sources(Group(os, v))|
  {
    var o :| o in os && o.value == v;
    WinnerIsLeast(MostFrequent, os);
    LeadTells(MostFrequent, os, Pick(MostFrequent, os), o);
  }
}
