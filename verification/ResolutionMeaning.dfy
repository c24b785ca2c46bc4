/** What each statement of resolution leaves, said of the tables before and after. */
module ResolutionMeaning {
  import opened Ordering
  import opened Sequences
  import opened Keys
  import opened Scoring
  import opened EntityStore
  import opened MergeForest
  import opened StableIds

  // ---- what a lookup puts before the decision -----------------------------------------------------------------

  /** One entity's found rows, in the order found, each as the record shares it. */
  function SharedWith(rows: seq<KeyRow>, keys: seq<IdentityKey>, e: EntityId): seq<IdentityKey> {
    if rows == [] then []
    else
      var init, last := SharedWith(rows[..|rows| - 1], keys, e), rows[|rows| - 1];
      if last.entity == e then init + [SharedKey(last, keys)] else init
  }

  /** The strength of a shared key: strong only where stored strong and built strong. */
  lemma SharedKeyIs(row: KeyRow, keys: seq<IdentityKey>)
    requires HasMarker(keys, RowMarker(row))
    requires forall i, j :: 0 <= i < j < |keys| ==> MarkerOf(keys[i]) != MarkerOf(keys[j])
    ensures var k := SharedKey(row, keys);
      && k.keyType == row.keyType && k.keyValue == row.keyValue
      && (k.strength == Strong <==>
            row.strength == Strong && exists i :: 0 <= i < |keys| && MarkerOf(keys[i]) == RowMarker(row) && keys[i].strength == Strong)
  {
    BuiltIs(keys, RowMarker(row), row.strength);
  }

  lemma {:induction false} BuiltIs(keys: seq<IdentityKey>, m: Marker, stored: Strength)
    requires HasMarker(keys, m)
    requires forall i, j :: 0 <= i < j < |keys| ==> MarkerOf(keys[i]) != MarkerOf(keys[j])
    ensures forall i :: 0 <= i < |keys| && MarkerOf(keys[i]) == m ==> keys[i].strength == BuiltStrength(keys, m, stored)
  {
    var n := |keys| - 1;
    if MarkerOf(keys[n]) != m {
      var i :| 0 <= i < |keys| && MarkerOf(keys[i]) == m;
      assert MarkerOf(keys[..n][i]) == m;
      BuiltIs(keys[..n], m, stored);
      forall j | 0 <= j < |keys| && MarkerOf(keys[j]) == m ensures keys[j].strength == BuiltStrength(keys, m, stored) {
        assert keys[..n][j] == keys[j];
      }
    }
  }

  /** What an entity's overlap holds; nothing if it has none. */
  function MatchedFor(os: seq<Overlap>, e: EntityId): seq<IdentityKey> {
    if os == [] then [] else if os[0].entityId == e then os[0].matched else MatchedFor(os[1..], e)
  }

  ghost predicate OnePerEntity(os: seq<Overlap>) {
    forall i, j :: 0 <= i < j < |os| ==> os[i].entityId != os[j].entityId
  }

  lemma {:induction false} AddOverlapAdds(os: seq<Overlap>, e: EntityId, k: IdentityKey, x: EntityId)
    ensures MatchedFor(AddOverlap(os, e, k), x) == if x == e then MatchedFor(os, x) + [k] else MatchedFor(os, x)
  {
    if os != [] && os[0].entityId != e { AddOverlapAdds(os[1..], e, k, x); }
  }

  lemma EntitiesTell(os: seq<Overlap>)
    ensures forall e :: e in Reached(os) <==> e in EntitiesOf(os)
    ensures OnePerEntity(os) <==> forall i, j :: 0 <= i < j < |os| ==> EntitiesOf(os)[i] != EntitiesOf(os)[j]
  {
    forall e ensures e in Reached(os) <==> e in EntitiesOf(os) {
      if e in Reached(os) {
        var o :| o in os && o.entityId == e;
        var i :| 0 <= i < |os| && os[i] == o;
        assert EntitiesOf(os)[i] == e;
      }
    }
    if forall i, j :: 0 <= i < j < |os| ==> EntitiesOf(os)[i] != EntitiesOf(os)[j] {
      forall i, j | 0 <= i < j < |os| ensures os[i].entityId != os[j].entityId {
        assert EntitiesOf(os)[i] != EntitiesOf(os)[j];
      }
    }
  }

  lemma AddOverlapIs(os: seq<Overlap>, e: EntityId, k: IdentityKey, x: EntityId)
    ensures MatchedFor(AddOverlap(os, e, k), x) == if x == e then MatchedFor(os, x) + [k] else MatchedFor(os, x)
    ensures Reached(AddOverlap(os, e, k)) == Reached(os) + {e}
    ensures OnePerEntity(os) ==> OnePerEntity(AddOverlap(os, e, k))
  {
    hide AddOverlap, MatchedFor, Reached, OnePerEntity;
    AddOverlapAdds(os, e, k, x);
    AddOverlapSees(os, e, k);
    EntitiesTell(os);
    EntitiesTell(AddOverlap(os, e, k));
  }

  /** The decision gets one overlap per entity found, holding all that entity's found keys in the order found. */
  lemma {:induction false} OverlapsHoldAll(rows: seq<KeyRow>, keys: seq<IdentityKey>, e: EntityId)
    ensures OnePerEntity(Overlaps(rows, keys))
    ensures MatchedFor(Overlaps(rows, keys), e) == SharedWith(rows, keys, e)
    ensures e in Reached(Overlaps(rows, keys)) <==> SharedWith(rows, keys, e) != []
  {
    if rows != [] {
      hide AddOverlap, SharedKey, MatchedFor, Reached, OnePerEntity;
      var n := |rows| - 1;
      OverlapsHoldAll(rows[..n], keys, e);
      AddOverlapIs(Overlaps(rows[..n], keys), rows[n].entity, SharedKey(rows[n], keys), e);
    }
  }

  lemma {:induction false} OverlapIsMatched(os: seq<Overlap>, o: Overlap)
    requires OnePerEntity(os) && o in os
    ensures MatchedFor(os, o.entityId) == o.matched
  {
    if os[0] != o {
      var i :| 0 <= i < |os| && os[i] == o;
      assert os[1..][i - 1] == o;
      OverlapIsMatched(os[1..], o);
    }
  }

  /** Every match weighed is the score of all the keys its entity shares with the record, and every entity that shares one is weighed. */
  lemma MatchesWeighAll(s: Store, entityType: EntityType, keys: seq<IdentityKey>, m: Match)
    ensures var rows, d := FindCandidates(s, entityType, keys), CandidatesFor(s, entityType, keys);
      m in d.considered <==>
        SharedWith(rows, keys, m.entityId) != [] && m == Score(entityType, m.entityId, SharedWith(rows, keys, m.entityId))
  {
    var rows := FindCandidates(s, entityType, keys);
    var os := Overlaps(rows, keys);
    hide Overlaps, Decide, Score, FindCandidates, MatchedFor, SharedWith, Scored;
    DecisionIs(entityType, os);
    SameMultisetSameMembers(Decide(entityType, os).considered, Scored(entityType, os));
    ScoredComesFromCandidates(entityType, os);
    OverlapsHoldAll(rows, keys, m.entityId);
    if m in Scored(entityType, os) {
      var o :| o in os && o.matched != [] && m == Score(entityType, o.entityId, o.matched);
      var j := ScoreMeans(entityType, o.entityId, o.matched);
      OverlapIsMatched(os, o);
    }
    if SharedWith(rows, keys, m.entityId) != [] {
      var o :| o in os && o.entityId == m.entityId;
      OverlapIsMatched(os, o);
    }
  }

  // ---- the key rows a subject leaves --------------------------------------------------------------------------

  /** A row as this record's: its key, the strength it built, its own id. */
  ghost predicate RowOf(row: KeyRow, e: EntityId, entityType: EntityType, record: RecordId, ks: seq<IdentityKey>) {
    && row.entity == e && row.entityType == entityType && row.sourceRecord == record
    && IdentityKey(row.keyType, row.keyValue, row.strength) in ks
  }

  lemma {:induction false} NewRowsAre(rows: seq<KeyRow>, e: EntityId, entityType: EntityType, record: RecordId, ks: seq<IdentityKey>)
    ensures var out := WithKeys(rows, e, entityType, record, ks);
      rows <= out && forall i :: |rows| <= i < |out| ==> RowOf(out[i], e, entityType, record, ks)
  {
    if ks != [] {
      var n := |ks| - 1;
      NewRowsAre(rows, e, entityType, record, ks[..n]);
      assert ks == ks[..n] + [ks[n]];
      var before, out := WithKeys(rows, e, entityType, record, ks[..n]), WithKeys(rows, e, entityType, record, ks);
      forall i | |rows| <= i < |out| ensures RowOf(out[i], e, entityType, record, ks) {
        if i < |before| { assert RowOf(before[i], e, entityType, record, ks[..n]); }
      }
    }
  }

  // ---- deciding a candidate -----------------------------------------------------------------------------------

  /** Known, and at most fifteen merges from what it has become. */
  ghost predicate InReach(s: Store, id: EntityId) { id in s.entities && Hops(s.merges, id) <= 15 }

  lemma ResolvesInReach(s: Store, id: EntityId)
    requires Forest(s)
    ensures ResolveEntityId(s, id).Found? <==> InReach(s, id)
    ensures InReach(s, id) ==> ResolveEntityId(s, id) == Found(RootOf(s.merges, id))
    ensures ResolveEntityId(s, id) == Unterminated <==> id in s.entities && !InReach(s, id)
  {
    hide WalkFrom, Hops, RootOf, Forest;
    ResolvesIffWithinFifteenHops(s, id);
  }

  /**
   * Why an accept is refused, and what it does otherwise: the candidate must be there and open, the record
   * linked, and both entities known and within reach; it then merges what the record's entity has become into
   * what the candidate's has, unless they have become the same.
   */
  lemma AcceptanceIs(s: Store, id: CandidateId)
    requires Forest(s)
    ensures var self, a := LinkKey(id.record, Self), AcceptanceOf(s, id);
      && (a == NotFound <==> id !in s.candidates)
      && (a == NotOpen <==> id in s.candidates && s.candidates[id].status != Open)
      && (a == NoSelfLink <==> id in s.candidates && s.candidates[id].status == Open && self !in s.links
                               && (id.entity in s.entities ==> InReach(s, id.entity)))
      && (a == ChainTooLong <==>
            && id in s.candidates && s.candidates[id].status == Open
            && ((id.entity in s.entities && !InReach(s, id.entity))
                || (self in s.links && s.links[self].entity in s.entities && !InReach(s, s.links[self].entity))))
      && (a.AlreadyMerged? || a.Merging? <==>
            && id in s.candidates && s.candidates[id].status == Open && self in s.links
            && InReach(s, id.entity) && InReach(s, s.links[self].entity))
      && (a.AlreadyMerged? ==> a.entity == RootOf(s.merges, id.entity) == RootOf(s.merges, s.links[self].entity))
      && (a.Merging? ==> a.surviving == RootOf(s.merges, id.entity) && a.merged == RootOf(s.merges, s.links[self].entity)
                         && a.surviving != a.merged)
  {
    hide ResolveEntityId, InReach, RootOf, Forest;
    ResolvesInReach(s, id.entity);
    var self := LinkKey(id.record, Self);
    if self in s.links { ResolvesInReach(s, s.links[self].entity); }
  }

  /** Every other candidate is left as it was. */
  ghost predicate OnlyDecides(was: map<CandidateId, Candidate>, now: map<CandidateId, Candidate>, id: CandidateId, status: CandidateStatus) {
    now.Keys == was.Keys && id in was && now[id] == was[id].(status := status) && forall c :: c in was && c != id ==> now[c] == was[c]
  }

  /** An accept that goes through closes the candidate as accepted; a rejection closes an open one as rejected and moves nothing else. */
  lemma DecisionsAreRecorded(s: Store, id: CandidateId)
    ensures var a, t := AcceptanceOf(s, id), Accept(s, id);
      && (a.AlreadyMerged? || a.Merging? ==> OnlyDecides(s.candidates, t.candidates, id, Accepted))
      && (!a.AlreadyMerged? && !a.Merging? ==> t == s)
      && (a.AlreadyMerged? ==> t == s.(candidates := t.candidates))
    ensures var t := Reject(s, id);
      && (id in s.candidates && s.candidates[id].status == Open ==>
            OnlyDecides(s.candidates, t.candidates, id, Rejected) && t == s.(candidates := t.candidates))
      && (id !in s.candidates || s.candidates[id].status != Open ==> t == s)
  {
    hide ResolveEntityId, MergeEntities;
    MergingLeavesCandidates(s, id);
  }

  lemma MergingLeavesCandidates(s: Store, id: CandidateId)
    ensures AcceptanceOf(s, id).Merging? ==> id in s.candidates
    ensures forall merged, surviving, entityType, confidence ::
      MergeEntities(s, merged, surviving, entityType, confidence).candidates == s.candidates
  {
    hide ResolveEntityId, CopyKeys, Repointed, Tombstoned, LinksOf;
  }

  // ---- merging ------------------------------------------------------------------------------------------------

  /** The absorbed entity's keys the survivor does not hold. */
  function Missing(rows: seq<KeyRow>, some: seq<KeyRow>, from: EntityId, to: EntityId): nat {
    if some == [] then 0
    else
      var last := some[|some| - 1];
      Missing(rows, some[..|some| - 1], from, to) + (if last.entity == from && !HasKey(rows, to, RowMarker(last)) then 1 else 0)
  }

  ghost predicate Logged(s: Store, t: Store, c: Candidate, merged: EntityId, surviving: EntityId) {
    && t.merges == s.merges + [MergeRow(merged, surviving, c.entityType, c.confidence,
                                        |set k | k in s.links && s.links[k].entity == merged|,
                                        Missing(s.keys, s.keys, merged, surviving))]
    && merged in s.entities && t.entities == s.entities[merged := s.entities[merged].(status := Merged(surviving))]
  }

  /** An accepted merge is logged with both entities, what it was accepted on, and what it moved. */
  lemma MergeIsLogged(s: Store, id: CandidateId)
    requires Inv(s) && AcceptanceOf(s, id).Merging?
    ensures id in s.candidates && Logged(s, Accept(s, id), s.candidates[id], AcceptanceOf(s, id).merged, AcceptanceOf(s, id).surviving)
  {
    hide AcceptanceOf, CopyKeys, Forest, LinksActive, KeyIndexComplete, KeysOwned, CandidatesFiled;
    AcceptIs(s, id);
    var a, c := AcceptanceOf(s, id), s.candidates[id];
    MergingArgumentsAreActive(s, id);
    CopiesAreMissing(s.keys, s.keys, a.merged, a.surviving);
    CopyKeysGrows(s.keys, s.keys, a.merged, a.surviving);
    assert (set k | k in s.links && s.links[k].entity == a.merged) == LinksOf(s.links, a.merged);
  }

  /** Copying the first rows adds one for each key the survivor lacked. */
  lemma {:induction false} CopiesAreMissing(rows: seq<KeyRow>, some: seq<KeyRow>, from: EntityId, to: EntityId)
    requires KeysUnique(rows) && KeysUnique(some)
    ensures |CopyKeys(rows, some, from, to)| == |rows| + Missing(rows, some, from, to)
    ensures forall m :: HasKey(CopyKeys(rows, some, from, to), to, m) <==>
      HasKey(rows, to, m) || exists i :: 0 <= i < |some| && some[i].entity == from && RowMarker(some[i]) == m
  {
    if some != [] {
      var n := |some| - 1;
      var last := some[n];
      CopiesAreMissing(rows, some[..n], from, to);
      var before, out := CopyKeys(rows, some[..n], from, to), CopyKeys(rows, some, from, to);
      assert forall i :: 0 <= i < n ==> some[..n][i] == some[i];
      forall m ensures HasKey(out, to, m) <==>
        HasKey(rows, to, m) || exists i :: 0 <= i < |some| && some[i].entity == from && RowMarker(some[i]) == m
      {
        if last.entity == from {
          WithRowHas(before, last.(entity := to), m);
        }
      }
    }
  }

  /** A row as another entity's. */
  ghost predicate IsCopy(row: KeyRow, some: seq<KeyRow>, from: EntityId, to: EntityId) {
    exists was :: was in some && was.entity == from && row == was.(entity := to)
  }

  /** The rows a merge adds are the absorbed entity's, with everything they say but whose they are. */
  ghost predicate CopiesOf(rows: seq<KeyRow>, out: seq<KeyRow>, some: seq<KeyRow>, from: EntityId, to: EntityId) {
    rows <= out && forall i :: |rows| <= i < |out| ==> IsCopy(out[i], some, from, to)
  }

  lemma {:induction false} CopiesSayTheSame(rows: seq<KeyRow>, some: seq<KeyRow>, from: EntityId, to: EntityId)
    ensures CopiesOf(rows, CopyKeys(rows, some, from, to), some, from, to)
  {
    if some != [] {
      hide IsCopy;
      var n := |some| - 1;
      CopiesSayTheSame(rows, some[..n], from, to);
      forall row | IsCopy(row, some[..n], from, to) ensures IsCopy(row, some, from, to) { CopyOfMore(row, some, from, to); }
      if some[n].entity == from { LastIsCopy(some, from, to); }
    }
  }

  lemma CopyOfMore(row: KeyRow, some: seq<KeyRow>, from: EntityId, to: EntityId)
    requires some != [] && IsCopy(row, some[..|some| - 1], from, to)
    ensures IsCopy(row, some, from, to)
  {
    var was :| was in some[..|some| - 1] && was.entity == from && row == was.(entity := to);
    assert was in some;
  }

  lemma LastIsCopy(some: seq<KeyRow>, from: EntityId, to: EntityId)
    requires some != [] && some[|some| - 1].entity == from
    ensures IsCopy(some[|some| - 1].(entity := to), some, from, to)
  {
    assert some[|some| - 1] in some;
  }

  /** What an accepted merge does to keys and links: rows are added that are copies, links are moved, and nothing else about either changes. */
  lemma MergeMoves(s: Store, id: CandidateId)
    requires AcceptanceOf(s, id).Merging?
    ensures var a, t := AcceptanceOf(s, id), Accept(s, id);
      && CopiesOf(s.keys, t.keys, s.keys, a.merged, a.surviving)
      && t.links.Keys == s.links.Keys
      && forall k :: k in s.links ==>
           t.links[k] == if s.links[k].entity == a.merged then s.links[k].(entity := a.surviving) else s.links[k]
  {
    hide AcceptanceOf, CopiesOf;
    MergingLeavesCandidates(s, id);
    CopiesSayTheSame(s.keys, s.keys, AcceptanceOf(s, id).merged, AcceptanceOf(s, id).surviving);
  }

  /** A subject linked already stays linked as it was, whatever is decided about it now. */
  lemma LinkedStaysLinked(s: Store, r: Subject)
    requires LinkKey(r.record, r.role) in s.links
    ensures Resolve(s, r).store.links == s.links
  {
    hide DecisionFor, WithKeys;
  }

  // ---- who comes first ----------------------------------------------------------------------------------------

  function EntitiesOf(os: seq<Overlap>): seq<EntityId> { seq(|os|, i requires 0 <= i < |os| => os[i].entityId) }

  /** The rows' entities, once each, in the order of their first rows. */
  function FirstSeen(rows: seq<KeyRow>): seq<EntityId> {
    if rows == [] then []
    else
      var seen, e := FirstSeen(rows[..|rows| - 1]), rows[|rows| - 1].entity;
      if e in seen then seen else seen + [e]
  }

  lemma {:induction false} AddOverlapSees(os: seq<Overlap>, e: EntityId, k: IdentityKey)
    ensures EntitiesOf(AddOverlap(os, e, k)) == if e in EntitiesOf(os) then EntitiesOf(os) else EntitiesOf(os) + [e]
  {
    if os != [] && os[0].entityId != e {
      AddOverlapSees(os[1..], e, k);
      EntitiesCons(os[0], os[1..]);
      EntitiesCons(os[0], AddOverlap(os[1..], e, k));
      assert os == [os[0]] + os[1..];
    } else if os != [] {
      assert EntitiesOf(os)[0] == e;
      assert EntitiesOf(AddOverlap(os, e, k)) == EntitiesOf(os);
    }
  }

  lemma EntitiesCons(head: Overlap, tail: seq<Overlap>)
    ensures EntitiesOf([head] + tail) == [head.entityId] + EntitiesOf(tail)
  {
  }

  /** Entities are weighed in the order their first rows were found. */
  lemma {:induction false} WeighedAsFound(rows: seq<KeyRow>, keys: seq<IdentityKey>)
    ensures EntitiesOf(Overlaps(rows, keys)) == FirstSeen(rows)
  {
    if rows != [] {
      hide EntitiesOf, AddOverlap;
      var n := |rows| - 1;
      WeighedAsFound(rows[..n], keys);
      AddOverlapSees(Overlaps(rows[..n], keys), rows[n].entity, SharedKey(rows[n], keys));
    } else {
      assert EntitiesOf([]) == [];
    }
  }

  lemma WithRowHas(rows: seq<KeyRow>, row: KeyRow, m: Marker)
    ensures HasKey(WithRow(rows, row), row.entity, m) <==> HasKey(rows, row.entity, m) || m == RowMarker(row)
  {
    var out := WithRow(rows, row);
    if !HasKey(rows, row.entity, RowMarker(row)) {
      assert out[|rows|] == row;
      if HasKey(rows, row.entity, m) { HasKeyGrows(rows, out, row.entity, m); }
    }
  }
}
