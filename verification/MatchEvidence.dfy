/** What stands behind an automatic link. */
module MatchEvidence {
  import opened Ordering
  import opened Keys
  import opened Scoring
  import opened Sequences
  import opened EntityStore
  import opened MergeForest
  import opened StableIds

  lemma {:induction false} BuiltStrengthIs(keys: seq<IdentityKey>, m: Marker, stored: Strength)
    requires HasMarker(keys, m)
    ensures exists k :: k in keys && MarkerOf(k) == m && k.strength == BuiltStrength(keys, m, stored)
  {
    var n := |keys| - 1;
    if MarkerOf(keys[n]) == m {
      assert keys[n] in keys;
    } else {
      var i :| 0 <= i < |keys| && MarkerOf(keys[i]) == m;
      assert keys[..n][i] == keys[i];
      BuiltStrengthIs(keys[..n], m, stored);
      var k :| k in keys[..n] && MarkerOf(k) == m && k.strength == BuiltStrength(keys[..n], m, stored);
      assert k in keys;
    }
  }

  /**
   * Behind every automatic link is one key that the linked entity holds as strong and this record
   * built as strong; it is the key the link is recorded under, and no other candidate scored as high.
   */
  lemma LinkNeedsKeyStrongOnBothSides(s: Store, entityType: EntityType, keys: seq<IdentityKey>)
    returns (row: KeyRow, mine: IdentityKey)
    requires CandidatesFor(s, entityType, keys).kind == Link
    ensures var best := CandidatesFor(s, entityType, keys).best;
      && best.Some? && best.value.confidence >= AUTO_LINK_THRESHOLD
      && row in s.keys && Findable(s, entityType, keys, row) && row.entity == best.value.entityId
      && row.keyType == best.value.strongest && row.strength == Strong
      && mine in keys && MarkerOf(mine) == RowMarker(row) && mine.strength == Strong
    ensures forall m :: m in CandidatesFor(s, entityType, keys).considered && m != CandidatesFor(s, entityType, keys).best.value ==>
      m.confidence < CandidatesFor(s, entityType, keys).best.value.confidence
  {
    var rows := FindCandidates(s, entityType, keys);
    var os := Overlaps(rows, keys);
    var d := Decide(entityType, os);
    DecisionIs(entityType, os);
    var best := d.best.value;
    assert SoleBest(Scored(entityType, os), best);
    SameMultisetSameMembers(d.considered, Scored(entityType, os));
    row := StrongRowBehind(s, entityType, keys, best);
    mine := MineBehind(row, keys);
  }

  lemma StrongRowBehind(s: Store, entityType: EntityType, keys: seq<IdentityKey>, best: Match) returns (row: KeyRow)
    requires best in Scored(entityType, Overlaps(FindCandidates(s, entityType, keys), keys))
    requires best.confidence >= AUTO_LINK_THRESHOLD
    ensures row in s.keys && Findable(s, entityType, keys, row) && row.entity == best.entityId
    ensures row.keyType == best.strongest && SharedKey(row, keys).strength == Strong
  {
    var rows := FindCandidates(s, entityType, keys);
    var os := Overlaps(rows, keys);
    FindCandidatesAre(s, entityType, keys);
    OverlapsAre(rows, keys);
    ScoredComesFromCandidates(entityType, os);
    var o :| o in os && o.matched != [] && best == Score(entityType, o.entityId, o.matched);
    LinkableNeedsStrongKey(entityType, o.entityId, o.matched);
    var k :| TopKey(entityType, o.matched, k) && k.strength == Strong && k.keyType == best.strongest;
    assert OverlapOf(o, rows, keys);
    row :| row in rows && row.entity == o.entityId && k == SharedKey(row, keys);
  }

  lemma MineBehind(row: KeyRow, keys: seq<IdentityKey>) returns (mine: IdentityKey)
    requires SharedKey(row, keys).strength == Strong && HasMarker(keys, RowMarker(row))
    ensures row.strength == Strong
    ensures mine in keys && MarkerOf(mine) == RowMarker(row) && mine.strength == Strong
  {
    BuiltStrengthIs(keys, RowMarker(row), row.strength);
    mine :| mine in keys && MarkerOf(mine) == RowMarker(row) && mine.strength == BuiltStrength(keys, RowMarker(row), row.strength);
  }

  /**
   * A company record from a source of premises links automatically only through that source's own
   * listing id, whatever else agrees and however strong the other side believes its keys are.
   */
  lemma PremisesLinkOnlyByListingId(s: Store, values: Values, sourceId: string, roleEmail: bool, urls: UrlReaders)
    returns (row: KeyRow)
    requires CandidatesFor(s, Company, KeysFor(Company, values, sourceId, roleEmail, Location, urls)).kind == Link
    ensures var best := CandidatesFor(s, Company, KeysFor(Company, values, sourceId, roleEmail, Location, urls)).best;
      && best.Some? && row in s.keys && row.entity == best.value.entityId
      && row.keyType == ExternalId && row.strength == Strong && sourceId + ":" <= row.keyValue
  {
    var keys := KeysFor(Company, values, sourceId, roleEmail, Location, urls);
    CompanyKeyStrengths(values, sourceId, roleEmail, Location, urls);
    var mine;
    row, mine := LinkNeedsKeyStrongOnBothSides(s, Company, keys);
  }
}
