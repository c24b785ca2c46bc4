/** From shared keys to one decision. Confidences are exact in hundredths. */
module Scoring {
  import opened Ordering
  import opened Keys
  import opened Sequences

  const AUTO_LINK_THRESHOLD := 90
  const REVIEW_THRESHOLD := 60
  const CORROBORATION_BOOST := 4
  const MAX_CONFIDENCE := 99

  type EntityId = nat

  datatype Match = Match(entityId: EntityId, confidence: nat, strongest: KeyType, matchedKeys: seq<Marker>)
  datatype DecisionKind = Link | Review | New
  datatype Decision = Decision(kind: DecisionKind, best: Option<Match>, considered: seq<Match>)

  /** One entity the record's keys reach, with the keys they share. */
  datatype Overlap = Overlap(entityId: EntityId, matched: seq<IdentityKey>)

  function Min(a: nat, b: nat): nat { if a <= b then a else b }

  function InsertRanked(entityType: EntityType, k: IdentityKey, s: seq<IdentityKey>): seq<IdentityKey> {
    if s == [] then [k]
    else if Weight(entityType, k.keyType) >= Weight(entityType, s[0].keyType) then [k] + s
    else [s[0]] + InsertRanked(entityType, k, s[1..])
  }

  /** Sorted by weight, heaviest first, equal weights in the order given. */
  function Ranked(entityType: EntityType, ks: seq<IdentityKey>): seq<IdentityKey> {
    if ks == [] then [] else InsertRanked(entityType, ks[0], Ranked(entityType, ks[1..]))
  }

  lemma {:induction false} InsertRankedShape(entityType: EntityType, k: IdentityKey, s: seq<IdentityKey>)
    ensures multiset(InsertRanked(entityType, k, s)) == multiset(s) + multiset{k}
    ensures |InsertRanked(entityType, k, s)| == |s| + 1
  {
    if s != [] && Weight(entityType, k.keyType) < Weight(entityType, s[0].keyType) {
      InsertRankedShape(entityType, k, s[1..]);
      assert s == [s[0]] + s[1..];
    }
  }

  lemma {:induction false} RankedShape(entityType: EntityType, ks: seq<IdentityKey>)
    ensures multiset(Ranked(entityType, ks)) == multiset(ks)
    ensures |Ranked(entityType, ks)| == |ks|
  {
    hide InsertRanked;
    if ks != [] {
      RankedShape(entityType, ks[1..]);
      InsertRankedShape(entityType, ks[0], Ranked(entityType, ks[1..]));
      assert ks == [ks[0]] + ks[1..];
    }
  }

  function Types(ks: seq<IdentityKey>): set<KeyType> {
    set k | k in ks :: k.keyType
  }

  /** `score_candidate` on a non-empty overlap; an empty one scores nothing. */
  function Score(entityType: EntityType, entityId: EntityId, matched: seq<IdentityKey>): Match
    requires matched != []
  {
    RankedShape(entityType, matched);
    var ranked := Ranked(entityType, matched);
    var best := ranked[0];
    var extra := Types(ranked) - {best.keyType};
    var raised := Weight(entityType, best.keyType) + CORROBORATION_BOOST * |extra|;
    var capped := if best.strength == Strong then raised else Min(raised, AUTO_LINK_THRESHOLD - 1);
    Match(entityId, Min(capped, MAX_CONFIDENCE), best.keyType,
          seq(|ranked|, i requires 0 <= i < |ranked| => MarkerOf(ranked[i])))
  }

  function Scored(entityType: EntityType, candidates: seq<Overlap>): seq<Match> {
    if candidates == [] then []
    else if candidates[0].matched == [] then Scored(entityType, candidates[1..])
    else [Score(entityType, candidates[0].entityId, candidates[0].matched)] + Scored(entityType, candidates[1..])
  }

  function InsertMatch(m: Match, s: seq<Match>): seq<Match> {
    if s == [] then [m]
    else if m.confidence >= s[0].confidence then [m] + s
    else [s[0]] + InsertMatch(m, s[1..])
  }

  /** Most confident first, ties in the order given. */
  function SortMatches(ms: seq<Match>): seq<Match> {
    if ms == [] then [] else InsertMatch(ms[0], SortMatches(ms[1..]))
  }

  /** `decide`. */
  function Decide(entityType: EntityType, candidates: seq<Overlap>): Decision {
    var scored := SortMatches(Scored(entityType, candidates));
    if scored == [] then Decision(New, None, [])
    else
      var best := scored[0];
      var tied := exists i :: 1 <= i < |scored| && scored[i].confidence == best.confidence;
      if tied && best.confidence >= AUTO_LINK_THRESHOLD then Decision(Review, Some(best), scored)
      else if best.confidence >= AUTO_LINK_THRESHOLD then Decision(Link, Some(best), scored)
      else if best.confidence >= REVIEW_THRESHOLD then Decision(Review, Some(best), scored)
      else Decision(New, Some(best), scored)
  }

  // ---- one candidate's score -------------------------------------------------

  /** The heaviest weight among the keys. */
  function TopWeight(entityType: EntityType, ks: seq<IdentityKey>): nat
    requires ks != []
  {
    if |ks| == 1 then Weight(entityType, ks[0].keyType)
    else
      var rest := TopWeight(entityType, ks[1..]);
      if Weight(entityType, ks[0].keyType) >= rest then Weight(entityType, ks[0].keyType) else rest
  }

  lemma {:induction false} TopWeightIsMax(entityType: EntityType, ks: seq<IdentityKey>)
    requires ks != []
    ensures forall k :: k in ks ==> Weight(entityType, k.keyType) <= TopWeight(entityType, ks)
    ensures exists k :: k in ks && Weight(entityType, k.keyType) == TopWeight(entityType, ks)
  {
    if |ks| == 1 {
      assert ks[0] in ks;
    } else {
      TopWeightIsMax(entityType, ks[1..]);
      assert ks[0] in ks;
      var k :| k in ks[1..] && Weight(entityType, k.keyType) == TopWeight(entityType, ks[1..]);
      assert k in ks;
      forall j | j in ks ensures Weight(entityType, j.keyType) <= TopWeight(entityType, ks) {
        assert j == ks[0] || j in ks[1..];
      }
    }
  }

  predicate TopKey(entityType: EntityType, ks: seq<IdentityKey>, k: IdentityKey)
    requires ks != []
  {
    k in ks && Weight(entityType, k.keyType) == TopWeight(entityType, ks)
  }

  /** The score before the ceiling. */
  function Uncapped(entityType: EntityType, ks: seq<IdentityKey>): nat
    requires ks != []
  {
    var types := Types(ks);
    assert ks[0].keyType in types;
    TopWeight(entityType, ks) + CORROBORATION_BOOST * (|types| - 1)
  }

  lemma {:induction false} RankedHeadIsTop(entityType: EntityType, ks: seq<IdentityKey>)
    requires ks != []
    ensures |Ranked(entityType, ks)| == |ks|
    ensures TopKey(entityType, ks, Ranked(entityType, ks)[0])
    ensures Weight(entityType, ks[0].keyType) == TopWeight(entityType, ks) ==> Ranked(entityType, ks)[0] == ks[0]
  {
    RankedShape(entityType, ks);
    if |ks| > 1 {
      RankedHeadIsTop(entityType, ks[1..]);
    } else {
      assert Ranked(entityType, ks[1..]) == [];
    }
  }

  lemma RankedTypes(entityType: EntityType, ks: seq<IdentityKey>)
    ensures Types(Ranked(entityType, ks)) == Types(ks)
  {
    RankedShape(entityType, ks);
    forall k ensures k in Ranked(entityType, ks) <==> k in ks {
      assert k in Ranked(entityType, ks) <==> k in multiset(Ranked(entityType, ks));
      assert k in ks <==> k in multiset(ks);
    }
  }

  /** The score of a candidate is its uncapped score under one of two ceilings. */
  lemma ScoreIs(entityType: EntityType, entityId: EntityId, ks: seq<IdentityKey>)
    requires ks != []
    ensures |Ranked(entityType, ks)| == |ks|
    ensures Score(entityType, entityId, ks).confidence ==
      Min(Uncapped(entityType, ks), if Ranked(entityType, ks)[0].strength == Strong then MAX_CONFIDENCE else AUTO_LINK_THRESHOLD - 1)
  {
    RankedHeadIsTop(entityType, ks);
    RankedTypes(entityType, ks);
    var best := Ranked(entityType, ks)[0];
    assert best.keyType in Types(ks);
    assert |Types(ks) - {best.keyType}| == |Types(ks)| - 1;
  }

  /** The first of the heaviest keys. */
  ghost predicate FirstHeaviest(entityType: EntityType, ks: seq<IdentityKey>, j: nat) {
    && j < |ks|
    && (forall i :: 0 <= i < |ks| ==> Weight(entityType, ks[i].keyType) <= Weight(entityType, ks[j].keyType))
    && (forall i :: 0 <= i < j ==> Weight(entityType, ks[i].keyType) < Weight(entityType, ks[j].keyType))
  }

  lemma {:induction false} RankedHeadIsFirstHeaviest(entityType: EntityType, ks: seq<IdentityKey>) returns (j: nat)
    requires ks != []
    ensures FirstHeaviest(entityType, ks, j) && Ranked(entityType, ks) != [] && Ranked(entityType, ks)[0] == ks[j]
  {
    RankedShape(entityType, ks);
    RankedShape(entityType, ks[1..]);
    if |ks| == 1 {
      j := 0;
    } else {
      var rest := RankedHeadIsFirstHeaviest(entityType, ks[1..]);
      j := if Weight(entityType, ks[0].keyType) >= Weight(entityType, ks[1..][rest].keyType) then 0 else rest + 1;
      assert forall i :: 1 <= i < |ks| ==> ks[i] == ks[1..][i - 1];
    }
  }

  /**
   * A candidate's match: recorded under the type of the first of its heaviest shared keys, worth that key's
   * weight and four hundredths for every further type shared, up to 0.99, or 0.89 where that key is not
   * decisive; and it names every shared key.
   */
  lemma ScoreMeans(entityType: EntityType, entityId: EntityId, ks: seq<IdentityKey>) returns (j: nat)
    requires ks != []
    ensures FirstHeaviest(entityType, ks, j)
    ensures var m := Score(entityType, entityId, ks);
      && m.entityId == entityId && m.strongest == ks[j].keyType
      && m.confidence == Min(Weight(entityType, ks[j].keyType) + 4 * |Types(ks) - {ks[j].keyType}|, if ks[j].strength == Strong then 99 else 89)
      && |m.matchedKeys| == |ks| && forall k :: k in m.matchedKeys <==> exists i :: 0 <= i < |ks| && MarkerOf(ks[i]) == k
  {
    j := RankedHeadIsFirstHeaviest(entityType, ks);
    RankedShape(entityType, ks);
    RankedTypes(entityType, ks);
    var ranked, m := Ranked(entityType, ks), Score(entityType, entityId, ks);
    SameMultisetSameMembers(ranked, ks);
    forall k ensures k in m.matchedKeys <==> exists i :: 0 <= i < |ks| && MarkerOf(ks[i]) == k {
      if k in m.matchedKeys {
        var i :| 0 <= i < |ranked| && MarkerOf(ranked[i]) == k;
        assert ranked[i] in ks;
      }
      if i :| 0 <= i < |ks| && MarkerOf(ks[i]) == k {
        assert ks[i] in ranked;
        var n :| 0 <= n < |ranked| && ranked[n] == ks[i];
        assert m.matchedKeys[n] == k;
      }
    }
  }

  /** A shared key both sides call decisive is behind every score that can link. */
  lemma LinkableNeedsStrongKey(entityType: EntityType, entityId: EntityId, ks: seq<IdentityKey>)
    requires ks != []
    requires Score(entityType, entityId, ks).confidence >= AUTO_LINK_THRESHOLD
    ensures exists k ::
      TopKey(entityType, ks, k) && k.strength == Strong && k.keyType == Score(entityType, entityId, ks).strongest
  {
    ScoreIs(entityType, entityId, ks);
    RankedHeadIsTop(entityType, ks);
    var k := Ranked(entityType, ks)[0];
    assert TopKey(entityType, ks, k) && k.strength == Strong;
  }

  /** The heaviest keys disagree about being decisive. */
  ghost predicate TopIsMixed(entityType: EntityType, ks: seq<IdentityKey>)
    requires ks != []
  {
    exists a, b :: TopKey(entityType, ks, a) && TopKey(entityType, ks, b) && a.strength == Strong && b.strength != Strong
  }

  ghost predicate SameKeys(a: seq<IdentityKey>, b: seq<IdentityKey>) { multiset(a) == multiset(b) }

  lemma SameKeysSameMembers(a: seq<IdentityKey>, b: seq<IdentityKey>)
    requires SameKeys(a, b)
    ensures |a| == |b| && Types(a) == Types(b)
    ensures forall k :: k in a <==> k in b
  {
    SameMultisetSameMembers(a, b);
  }

  lemma SameMembersSameTop(entityType: EntityType, a: seq<IdentityKey>, b: seq<IdentityKey>)
    requires a != [] && b != []
    requires forall k :: k in a <==> k in b
    ensures TopWeight(entityType, a) == TopWeight(entityType, b)
  {
    TopWeightIsMax(entityType, a);
    TopWeightIsMax(entityType, b);
  }

  /** Bringing a key to the front: the orders in which the top keys come first. */
  lemma BringToFront(ks: seq<IdentityKey>, k: IdentityKey) returns (front: seq<IdentityKey>)
    requires k in ks
    ensures front != [] && front[0] == k && SameKeys(ks, front)
  {
    var i :| 0 <= i < |ks| && ks[i] == k;
    front := [k] + ks[..i] + ks[i + 1..];
    assert ks == ks[..i] + [ks[i]] + ks[i + 1..];
  }

  /**
   * The order in which the lookup happens to return the shared keys is immaterial, unless two keys
   * of the top weight disagree about being decisive and the uncapped score passes the ceiling.
   */
  lemma ScoreIgnoresOrderIff(entityType: EntityType, entityId: EntityId, ks: seq<IdentityKey>)
    requires ks != []
    ensures (forall p :: SameKeys(ks, p) && p != [] ==>
               Score(entityType, entityId, p).confidence == Score(entityType, entityId, ks).confidence)
       <==> !(TopIsMixed(entityType, ks) && Uncapped(entityType, ks) >= AUTO_LINK_THRESHOLD)
  {
    if TopIsMixed(entityType, ks) && Uncapped(entityType, ks) >= AUTO_LINK_THRESHOLD {
      var a, b :| TopKey(entityType, ks, a) && TopKey(entityType, ks, b) && a.strength == Strong && b.strength != Strong;
      var strongFirst := BringToFront(ks, a);
      var moderateFirst := BringToFront(ks, b);
      ScoreWithHead(entityType, entityId, ks, strongFirst);
      ScoreWithHead(entityType, entityId, ks, moderateFirst);
    } else {
      forall p | SameKeys(ks, p) && p != []
        ensures Score(entityType, entityId, p).confidence == Score(entityType, entityId, ks).confidence
      {
        SameKeysSameMembers(ks, p);
        SameMembersSameTop(entityType, ks, p);
        RankedHeadIsTop(entityType, ks);
        RankedHeadIsTop(entityType, p);
        assert TopKey(entityType, ks, Ranked(entityType, p)[0]);
        ScoreIs(entityType, entityId, ks);
        ScoreIs(entityType, entityId, p);
      }
    }
  }

  lemma ScoreWithHead(entityType: EntityType, entityId: EntityId, ks: seq<IdentityKey>, p: seq<IdentityKey>)
    requires ks != [] && p != [] && SameKeys(ks, p)
    requires TopKey(entityType, ks, p[0])
    ensures Score(entityType, entityId, p).confidence ==
      Min(Uncapped(entityType, ks), if p[0].strength == Strong then MAX_CONFIDENCE else AUTO_LINK_THRESHOLD - 1)
  {
    SameKeysSameMembers(ks, p);
    SameMembersSameTop(entityType, ks, p);
    RankedHeadIsTop(entityType, p);
    ScoreIs(entityType, entityId, p);
  }

  /** A shared profile and a shared role mailbox, in the two orders the lookup may return them in. */
  function ProfileFirst(handle: string, mailbox: string): seq<IdentityKey> {
    [IdentityKey(LinkedIn, handle, Strong), IdentityKey(Email, mailbox, Moderate)]
  }

  function MailboxFirst(handle: string, mailbox: string): seq<IdentityKey> {
    [IdentityKey(Email, mailbox, Moderate), IdentityKey(LinkedIn, handle, Strong)]
  }

  lemma OneCandidateDecides(entityType: EntityType, entityId: EntityId, ks: seq<IdentityKey>)
    requires ks != []
    ensures var m := Score(entityType, entityId, ks);
      var kind := if m.confidence >= AUTO_LINK_THRESHOLD then Link else if m.confidence >= REVIEW_THRESHOLD then Review else New;
      Decide(entityType, [Overlap(entityId, ks)]) == Decision(kind, Some(m), [m])
  {
    hide Score;
    var m := Score(entityType, entityId, ks);
    assert [Overlap(entityId, ks)][1..] == [];
    assert Scored(entityType, [Overlap(entityId, ks)]) == [m];
    assert SortMatches([m]) == [m] by { assert [m][1..] == []; }
  }

  /** The same two shared keys link a person in one order and ask a human in the other. */
  lemma SameEvidenceLinksOrAsks(entityId: EntityId, handle: string, mailbox: string)
    ensures var a, b := ProfileFirst(handle, mailbox), MailboxFirst(handle, mailbox);
      && SameKeys(a, b) && TopIsMixed(Person, a) && Uncapped(Person, a) >= AUTO_LINK_THRESHOLD
      && Score(Person, entityId, a).confidence == 99 && Score(Person, entityId, b).confidence == 89
      && Decide(Person, [Overlap(entityId, a)]).kind == Link && Decide(Person, [Overlap(entityId, b)]).kind == Review
  {
    hide Score, Decide;
    var a, b := ProfileFirst(handle, mailbox), MailboxFirst(handle, mailbox);
    MixedTop(handle, mailbox);
    assert a == [a[0]] + [a[1]] && b == [a[1]] + [a[0]];
    ScoreWithHead(Person, entityId, a, a);
    ScoreWithHead(Person, entityId, a, b);
    OneCandidateDecides(Person, entityId, a);
    OneCandidateDecides(Person, entityId, b);
  }

  lemma MixedTop(handle: string, mailbox: string)
    ensures var a := ProfileFirst(handle, mailbox);
      && TopKey(Person, a, a[0]) && TopKey(Person, a, a[1]) && TopIsMixed(Person, a)
      && Uncapped(Person, a) >= MAX_CONFIDENCE
  {
    var a := ProfileFirst(handle, mailbox);
    assert a[1..] == [a[1]];
    assert TopWeight(Person, [a[1]]) == 95 && TopWeight(Person, a) == 95;
    assert TopKey(Person, a, a[0]) && TopKey(Person, a, a[1]);
    assert Types(a) == {LinkedIn, Email};
  }

  /** Every key is worth what its type's table says. */
  ghost predicate TableStrengths(entityType: EntityType, ks: seq<IdentityKey>) {
    forall k :: k in ks ==> (k.strength == Strong <==> StrongType(entityType, k.keyType))
  }

  /**
   * With table strengths more shared evidence never lowers a score, and repeating kinds of evidence
   * already present (the same types) leaves it exactly where it was.
   */
  lemma MoreEvidenceNeverLowersScore(entityType: EntityType, entityId: EntityId, few: seq<IdentityKey>, more: seq<IdentityKey>)
    requires few != []
    requires forall k :: k in few ==> k in more
    requires TableStrengths(entityType, more)
    ensures more != []
    ensures Score(entityType, entityId, few).confidence <= Score(entityType, entityId, more).confidence <= MAX_CONFIDENCE
    ensures Types(few) == Types(more) ==>
      Score(entityType, entityId, few).confidence == Score(entityType, entityId, more).confidence
  {
    assert few[0] in more;
    UncappedGrows(entityType, few, more);
    TableCeiling(entityType, entityId, few);
    TableCeiling(entityType, entityId, more);
    if Types(few) == Types(more) {
      UncappedGrowsBack(entityType, few, more);
    }
  }

  lemma UncappedGrows(entityType: EntityType, few: seq<IdentityKey>, more: seq<IdentityKey>)
    requires few != [] && more != []
    requires forall k :: k in few ==> k in more
    ensures TopWeight(entityType, few) <= TopWeight(entityType, more)
    ensures Uncapped(entityType, few) <= Uncapped(entityType, more)
  {
    TopWeightIsMax(entityType, few);
    TopWeightIsMax(entityType, more);
    assert Types(few) <= Types(more);
    SubsetSize(Types(few), Types(more));
  }

  lemma UncappedGrowsBack(entityType: EntityType, few: seq<IdentityKey>, more: seq<IdentityKey>)
    requires few != [] && more != [] && Types(few) == Types(more)
    ensures TopWeight(entityType, few) == TopWeight(entityType, more)
    ensures Uncapped(entityType, few) == Uncapped(entityType, more)
  {
    TopWeightIsMax(entityType, few);
    TopWeightIsMax(entityType, more);
    var f :| f in few && Weight(entityType, f.keyType) == TopWeight(entityType, few);
    var m :| m in more && Weight(entityType, m.keyType) == TopWeight(entityType, more);
    assert f.keyType in Types(more) && m.keyType in Types(few);
  }

  /** The strong types are exactly those whose weight reaches the link line. */
  lemma StrongTypesReachLinkLine(entityType: EntityType, keyType: KeyType)
    ensures StrongType(entityType, keyType) <==> Weight(entityType, keyType) >= AUTO_LINK_THRESHOLD
  {
    match keyType
    case ExternalId => case LinkedIn => case Email => case WebsiteDomain =>
    case NameCompany => case NameCity => case Name => case Phone =>
  }

  /** With table strengths the ceiling is lifted exactly by a top weight at the link line. */
  lemma TableCeiling(entityType: EntityType, entityId: EntityId, ks: seq<IdentityKey>)
    requires ks != [] && TableStrengths(entityType, ks)
    ensures Score(entityType, entityId, ks).confidence ==
      Min(Uncapped(entityType, ks), if TopWeight(entityType, ks) >= AUTO_LINK_THRESHOLD then MAX_CONFIDENCE else AUTO_LINK_THRESHOLD - 1)
  {
    ScoreIs(entityType, entityId, ks);
    RankedHeadIsTop(entityType, ks);
    var best := Ranked(entityType, ks)[0];
    StrongTypesReachLinkLine(entityType, best.keyType);
    assert best in ks;
  }

  lemma {:induction false} SubsetSize<T>(a: set<T>, b: set<T>)
    requires a <= b
    ensures |a| <= |b|
  {
    assert b == a + (b - a);
  }

  // ---- the decision -----------------------------------------------------------

  ghost predicate Descending(s: seq<Match>) {
    forall i, j :: 0 <= i < j < |s| ==> s[i].confidence >= s[j].confidence
  }

  lemma DescendingCons(m: Match, tail: seq<Match>)
    requires Descending(tail) && forall x :: x in tail ==> x.confidence <= m.confidence
    ensures Descending([m] + tail)
  {
    forall j | 0 <= j < |tail| ensures tail[j].confidence <= m.confidence { assert tail[j] in tail; }
  }

  lemma HeadIsHighest(s: seq<Match>)
    requires Descending(s) && s != []
    ensures forall x :: x in s ==> x.confidence <= s[0].confidence
    ensures Descending(s[1..])
  {
  }

  lemma {:induction false} InsertMatchShape(m: Match, s: seq<Match>)
    requires Descending(s)
    ensures multiset(InsertMatch(m, s)) == multiset(s) + multiset{m}
    ensures Descending(InsertMatch(m, s))
  {
    hide Descending;
    if s == [] {
      OneDescends(m);
    } else {
      HeadIsHighest(s);
      assert s == [s[0]] + s[1..];
      if m.confidence < s[0].confidence {
        InsertMatchShape(m, s[1..]);
        var tail := InsertMatch(m, s[1..]);
        forall x | x in tail ensures x.confidence <= s[0].confidence {
          assert x in multiset(tail);
        }
        DescendingCons(s[0], tail);
      } else {
        DescendingCons(m, s);
      }
    }
  }

  lemma OneDescends(m: Match)
    ensures Descending([]) && Descending([m])
  {
  }

  lemma {:induction false} SortMatchesShape(ms: seq<Match>)
    ensures multiset(SortMatches(ms)) == multiset(ms)
    ensures Descending(SortMatches(ms))
  {
    if ms != [] {
      SortMatchesShape(ms[1..]);
      InsertMatchShape(ms[0], SortMatches(ms[1..]));
      assert ms == [ms[0]] + ms[1..];
    }
  }

  /** `m` alone attains the highest confidence. */
  ghost predicate SoleBest(scored: seq<Match>, m: Match) {
    && multiset(scored)[m] == 1
    && forall x :: x in scored && x != m ==> x.confidence < m.confidence
  }

  lemma HeadOccursOnce<T>(s: seq<T>)
    requires s != []
    ensures multiset(s)[s[0]] == 1 <==> s[0] !in s[1..]
  {
    assert s == [s[0]] + s[1..];
    assert multiset(s)[s[0]] == 1 + multiset(s[1..])[s[0]];
    assert s[0] in s[1..] <==> s[0] in multiset(s[1..]);
  }

  lemma SortedHeadIsSoleBest(s: seq<Match>, scored: seq<Match>)
    requires s != [] && multiset(s) == multiset(scored)
    requires Descending(s)
    ensures forall x :: x in scored <==> x in s
    ensures forall x :: x in s ==> x.confidence <= s[0].confidence
    ensures (exists i :: 1 <= i < |s| && s[i].confidence == s[0].confidence) <==> !SoleBest(scored, s[0])
    ensures forall m :: SoleBest(scored, m) ==> m == s[0]
  {
    SameMultisetSameMembers(s, scored);
    HeadOccursOnce(s);
    assert forall j :: 0 <= j < |s[1..]| ==> s[1..][j] == s[j + 1];
    if i :| 1 <= i < |s| && s[i].confidence == s[0].confidence {
      assert s[1..][i - 1] == s[i];
    } else {
      assert forall x :: x in s && x != s[0] ==> x in s[1..];
    }
    forall m | SoleBest(scored, m) ensures m == s[0] {
      assert m in multiset(scored);
      assert s[0] in s && m in s;
    }
  }

  /**
   * A link happens exactly when one candidate alone has the highest score and it is at least 0.90;
   * no candidate reaching the review line means a new entity; anything else goes to a person. Whatever
   * the decision, the match it names is one no scored candidate beats, and it names none only when
   * nothing was scored.
   */
  lemma DecisionIs(entityType: EntityType, candidates: seq<Overlap>)
    ensures var d := Decide(entityType, candidates); var scored := Scored(entityType, candidates);
      && (d.best.None? <==> scored == [])
      && (d.best.Some? ==> d.best.value in scored && forall m :: m in scored ==> m.confidence <= d.best.value.confidence)
      && (d.kind == Review <==> (exists m :: m in scored && m.confidence >= 60)
                                && !(exists m :: SoleBest(scored, m) && m.confidence >= 90))
      && (forall m :: d.kind == Link && d.best == Some(m) <==> SoleBest(scored, m) && m.confidence >= AUTO_LINK_THRESHOLD)
      && (d.kind == New <==> forall m :: m in scored ==> m.confidence < REVIEW_THRESHOLD)
      && multiset(d.considered) == multiset(scored)
      && (d.kind != New ==> d.best.Some? && d.best.value in scored && d.best.value.confidence >= REVIEW_THRESHOLD)
      && (d.kind == Link ==> d.best.value.confidence >= AUTO_LINK_THRESHOLD)
  {
    hide Scored, InsertMatch;
    var scored := Scored(entityType, candidates);
    var s := SortMatches(scored);
    SortMatchesShape(scored);
    if s == [] {
      assert multiset(scored) == multiset(s) == multiset{};
      forall m ensures m !in scored { assert m in scored <==> m in multiset(scored); }
    } else {
      SortedHeadIsSoleBest(s, scored);
      assert s[0] in s;
    }
  }

  lemma {:induction false} SortedHeadComesFirst(ms: seq<Match>) returns (j: nat)
    requires ms != []
    ensures SortMatches(ms) != []
    ensures j < |ms| && SortMatches(ms)[0] == ms[j]
    ensures forall i :: 0 <= i < |ms| ==> ms[i].confidence <= ms[j].confidence
    ensures forall i :: 0 <= i < j ==> ms[i].confidence < ms[j].confidence
  {
    if |ms| == 1 {
      j := 0;
    } else {
      var k := SortedHeadComesFirst(ms[1..]);
      j := if ms[0].confidence >= ms[1..][k].confidence then 0 else k + 1;
      assert forall i :: 1 <= i < |ms| ==> ms[i] == ms[1..][i - 1];
    }
  }

  /** Of several equally confident matches the one named is the first weighed. */
  lemma DecisionNamesFirst(entityType: EntityType, candidates: seq<Overlap>) returns (j: nat)
    requires Scored(entityType, candidates) != []
    ensures var d, scored := Decide(entityType, candidates), Scored(entityType, candidates);
      && j < |scored| && d.best == Some(scored[j])
      && (forall i :: 0 <= i < |scored| ==> scored[i].confidence <= scored[j].confidence)
      && (forall i :: 0 <= i < j ==> scored[i].confidence < scored[j].confidence)
  {
    hide Scored;
    j := SortedHeadComesFirst(Scored(entityType, candidates));
  }

  lemma {:induction false} ScoredComesFromCandidates(entityType: EntityType, candidates: seq<Overlap>)
    ensures forall m :: m in Scored(entityType, candidates) <==>
      exists c :: c in candidates && c.matched != [] && m == Score(entityType, c.entityId, c.matched)
  {
    if candidates != [] {
      ScoredComesFromCandidates(entityType, candidates[1..]);
      forall m
        ensures m in Scored(entityType, candidates) <==>
          exists c :: c in candidates && c.matched != [] && m == Score(entityType, c.entityId, c.matched)
      {
        if m in Scored(entityType, candidates[1..]) {
          var c :| c in candidates[1..] && c.matched != [] && m == Score(entityType, c.entityId, c.matched);
          assert c in candidates;
        }
        if c :| c in candidates && c.matched != [] && m == Score(entityType, c.entityId, c.matched) {
          assert c == candidates[0] || c in candidates[1..];
        }
        if candidates[0].matched != [] && m == Score(entityType, candidates[0].entityId, candidates[0].matched) {
          assert candidates[0] in candidates;
        }
      }
    }
  }

  /** The decision, and the entity a link goes to, do not depend on the order of the candidates. */
  lemma {:induction false} DecisionIgnoresCandidateOrder(entityType: EntityType, a: seq<Overlap>, b: seq<Overlap>)
    requires multiset(a) == multiset(b)
    ensures Decide(entityType, a).kind == Decide(entityType, b).kind
    ensures Decide(entityType, a).kind == Link ==> Decide(entityType, a).best == Decide(entityType, b).best
  {
    ScoredMultiset(entityType, a, b);
    var sa, sb := Scored(entityType, a), Scored(entityType, b);
    DecisionIs(entityType, a);
    DecisionIs(entityType, b);
    forall m ensures m in sa <==> m in sb {
      assert m in sa <==> m in multiset(sa);
      assert m in sb <==> m in multiset(sb);
    }
    assert forall m :: SoleBest(sa, m) <==> SoleBest(sb, m);
  }

  function ScoreOf(entityType: EntityType, c: Overlap): multiset<Match> {
    if c.matched == [] then multiset{} else multiset{Score(entityType, c.entityId, c.matched)}
  }

  lemma ScoredWithout(entityType: EntityType, cs: seq<Overlap>, i: nat)
    requires i < |cs|
    ensures multiset(Scored(entityType, cs)) == multiset(Scored(entityType, cs[..i] + cs[i + 1..])) + ScoreOf(entityType, cs[i])
  {
    var tail := cs[i..];
    assert cs == cs[..i] + tail && tail[0] == cs[i] && tail[1..] == cs[i + 1..];
    ScoredConcat(entityType, cs[..i], tail);
    ScoredConcat(entityType, cs[..i], cs[i + 1..]);
  }

  lemma {:induction false} ScoredMultiset(entityType: EntityType, a: seq<Overlap>, b: seq<Overlap>)
    requires multiset(a) == multiset(b)
    ensures multiset(Scored(entityType, a)) == multiset(Scored(entityType, b))
    decreases |a|
  {
    hide Score, ScoreOf, Scored;
    if a == [] {
      SameMultisetSameMembers(a, b);
      assert b == [];
    } else {
      var i := MoveToFront(a, b);
      ScoredMultiset(entityType, a[1..], b[..i] + b[i + 1..]);
      ScoredWithout(entityType, b, i);
      assert a[..0] + a[1..] == a[1..];
      ScoredWithout(entityType, a, 0);
    }
  }

  lemma {:induction false} ScoredConcat(entityType: EntityType, a: seq<Overlap>, b: seq<Overlap>)
    ensures Scored(entityType, a + b) == Scored(entityType, a) + Scored(entityType, b)
  {
    if a == [] {
      assert a + b == b;
    } else {
      assert (a + b)[1..] == a[1..] + b;
      ScoredConcat(entityType, a[1..], b);
    }
  }
}
