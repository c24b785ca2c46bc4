/** What every resolve, accept and reject keeps: stable ids and a complete key index. */
module StableIds {
  import opened Ordering
  import opened Keys
  import opened Scoring
  import opened Sequences
  import opened EntityStore
  import opened MergeForest

  // ---- what a lookup reaches ------------------------------------------------------

  lemma {:induction false} FindAmongAre(s: Store, entityType: EntityType, keys: seq<IdentityKey>, rows: seq<KeyRow>)
    ensures forall row :: row in FindAmong(s, entityType, keys, rows) <==> row in rows && Findable(s, entityType, keys, row)
  {
    if rows != [] {
      FindAmongAre(s, entityType, keys, rows[..|rows| - 1]);
      assert rows == rows[..|rows| - 1] + [rows[|rows| - 1]];
    }
  }

  /** In whatever order, a lookup returns exactly the findable rows. */
  lemma FindCandidatesAre(s: Store, entityType: EntityType, keys: seq<IdentityKey>)
    ensures forall row :: row in FindCandidates(s, entityType, keys) <==> row in s.keys && Findable(s, entityType, keys, row)
  {
    FindAmongAre(s, entityType, keys, s.keys);
    SameMultisetSameMembers(FindCandidates(s, entityType, keys), FindAmong(s, entityType, keys, s.keys));
  }

  /** An overlap stands for rows of its entity, each carrying the weaker of the two strengths. */
  ghost predicate OverlapOf(o: Overlap, rows: seq<KeyRow>, keys: seq<IdentityKey>) {
    && o.matched != []
    && forall k :: k in o.matched ==> exists row :: row in rows && row.entity == o.entityId && k == SharedKey(row, keys)
  }

  function Reached(os: seq<Overlap>): set<EntityId> {
    set o | o in os :: o.entityId
  }

  lemma {:induction false} AddOverlapKeeps(os: seq<Overlap>, rows: seq<KeyRow>, keys: seq<IdentityKey>, row: KeyRow)
    requires row in rows && forall o :: o in os ==> OverlapOf(o, rows, keys)
    ensures forall o :: o in AddOverlap(os, row.entity, SharedKey(row, keys)) ==> OverlapOf(o, rows, keys)
    ensures Reached(AddOverlap(os, row.entity, SharedKey(row, keys))) == Reached(os) + {row.entity}
  {
    var k := SharedKey(row, keys);
    var out := AddOverlap(os, row.entity, k);
    if os == [] {
      assert out[0] in out && OverlapOf(Overlap(row.entity, [k]), rows, keys);
    } else {
      assert os[0] in os && OverlapOf(os[0], rows, keys);
      assert os == [os[0]] + os[1..];
      assert Reached(os) == {os[0].entityId} + Reached(os[1..]);
      if os[0].entityId == row.entity {
        var grown := Overlap(row.entity, os[0].matched + [k]);
        assert OverlapOf(grown, rows, keys);
        assert out == [grown] + os[1..];
        assert Reached(out) == {grown.entityId} + Reached(os[1..]);
      } else {
        AddOverlapKeeps(os[1..], rows, keys, row);
        var tail := AddOverlap(os[1..], row.entity, k);
        assert out == [os[0]] + tail;
        assert Reached(out) == {os[0].entityId} + Reached(tail);
      }
    }
  }

  lemma OverlapGrows(o: Overlap, few: seq<KeyRow>, more: seq<KeyRow>, keys: seq<IdentityKey>)
    requires OverlapOf(o, few, keys) && forall row :: row in few ==> row in more
    ensures OverlapOf(o, more, keys)
  {
  }

  lemma {:induction false} OverlapsAre(rows: seq<KeyRow>, keys: seq<IdentityKey>)
    ensures forall o :: o in Overlaps(rows, keys) ==> OverlapOf(o, rows, keys)
    ensures forall row :: row in rows ==> row.entity in Reached(Overlaps(rows, keys))
  {
    if rows != [] {
      var init, last := rows[..|rows| - 1], rows[|rows| - 1];
      assert rows == init + [last];
      OverlapsAre(init, keys);
      forall o | o in Overlaps(init, keys) ensures OverlapOf(o, rows, keys) {
        OverlapGrows(o, init, rows, keys);
      }
      AddOverlapKeeps(Overlaps(init, keys), rows, keys, last);
    }
  }

  /** The entity a decision names is active and holds a key of the right type that the record carries. */
  lemma DecisionReachesRow(s: Store, entityType: EntityType, keys: seq<IdentityKey>) returns (row: KeyRow)
    requires CandidatesFor(s, entityType, keys).best.Some?
    ensures row in s.keys && Findable(s, entityType, keys, row)
    ensures row.entity == CandidatesFor(s, entityType, keys).best.value.entityId
  {
    var rows := FindCandidates(s, entityType, keys);
    var os := Overlaps(rows, keys);
    FindCandidatesAre(s, entityType, keys);
    OverlapsAre(rows, keys);
    var best := Decide(entityType, os).best.value;
    BestIsScored(entityType, os);
    ScoredComesFromCandidates(entityType, os);
    var o :| o in os && o.matched != [] && best == Score(entityType, o.entityId, o.matched);
    assert o.matched[0] in o.matched && OverlapOf(o, rows, keys);
    row :| row in rows && row.entity == o.entityId && o.matched[0] == SharedKey(row, keys);
  }

  lemma BestIsScored(entityType: EntityType, os: seq<Overlap>)
    requires Decide(entityType, os).best.Some?
    ensures Decide(entityType, os).best.value in Scored(entityType, os)
  {
    var scored := Scored(entityType, os);
    SortMatchesShape(scored);
    SameMultisetSameMembers(SortMatches(scored), scored);
    assert SortMatches(scored)[0] in SortMatches(scored);
  }

  // ---- the invariant ----------------------------------------------------------------

  /** Every key ever recorded is held by the entity its owner has become. */
  ghost predicate KeyIndexComplete(s: Store) {
    forall i :: 0 <= i < |s.keys| ==> HasKey(s.keys, RootOf(s.merges, s.keys[i].entity), RowMarker(s.keys[i]))
  }

  ghost predicate KeysUnique(rows: seq<KeyRow>) {
    forall i, j :: 0 <= i < j < |rows| ==> rows[i].entity != rows[j].entity || RowMarker(rows[i]) != RowMarker(rows[j])
  }

  ghost predicate KeysOwned(s: Store) {
    forall i :: 0 <= i < |s.keys| ==> s.keys[i].entity in s.entities
  }

  ghost predicate LinksActive(s: Store) {
    forall k :: k in s.links ==> IsActive(s, s.links[k].entity)
  }

  ghost predicate CandidatesFiled(s: Store) {
    forall id :: id in s.candidates ==> id.entity in s.entities && LinkKey(id.record, Self) in s.links
  }

  ghost predicate Inv(s: Store) {
    Forest(s) && LinksActive(s) && KeysOwned(s) && KeysUnique(s.keys) && KeyIndexComplete(s) && CandidatesFiled(s)
  }

  ghost predicate TypedLinks(s: Store) {
    forall k :: k in s.links && s.links[k].entity in s.entities ==>
      s.links[k].entityType == s.entities[s.links[k].entity].entityType
  }

  ghost predicate TypedKeys(s: Store) {
    forall i :: 0 <= i < |s.keys| && s.keys[i].entity in s.entities ==>
      s.keys[i].entityType == s.entities[s.keys[i].entity].entityType
  }

  ghost predicate TypedCandidates(s: Store) {
    forall id :: id in s.candidates && id.entity in s.entities ==>
      s.candidates[id].entityType == s.entities[id.entity].entityType
  }

  ghost predicate TypedMerges(s: Store) {
    forall i :: 0 <= i < |s.merges| && s.merges[i].merged in s.entities && s.merges[i].surviving in s.entities ==>
      s.entities[s.merges[i].merged].entityType == s.entities[s.merges[i].surviving].entityType
  }

  /** Rows carry the type of the entity they belong to, and merges never cross types. */
  ghost predicate Typed(s: Store) {
    TypedLinks(s) && TypedKeys(s) && TypedCandidates(s) && TypedMerges(s)
  }

  /** What later states keep of an earlier one. */
  ghost predicate Advances(s: Store, t: Store) {
    && s.merges <= t.merges
    && s.keys <= t.keys
    && (forall e :: e in s.entities ==>
          e in t.entities && t.entities[e].entityType == s.entities[e].entityType && t.entities[e].firstSeen == s.entities[e].firstSeen)
    && (forall k :: k in s.links ==>
          k in t.links && t.links[k] == s.links[k].(entity := RootOf(t.merges, s.links[k].entity)))
    && (forall id :: id in s.candidates ==> id in t.candidates && t.candidates[id].entityType == s.candidates[id].entityType)
  }

  lemma AdvancesRefl(s: Store)
    requires Inv(s)
    ensures Advances(s, s)
  {
    forall k | k in s.links ensures s.links[k] == s.links[k].(entity := RootOf(s.merges, s.links[k].entity)) {
      ActiveIsRoot(s, s.links[k].entity);
    }
  }

  /** Later merges move a root and everything under it together. */
  lemma RootsComposeOverTime(early: seq<MergeRow>, late: seq<MergeRow>, id: EntityId)
    requires early <= late && WellOrdered(early)
    ensures RootOf(late, RootOf(early, id)) == RootOf(late, id)
  {
    var more := late[|early|..];
    assert late == early + more;
    RootIsUnabsorbed(early, id);
    RootConcat(early, more, id);
    RootConcat(early, more, RootOf(early, id));
  }

  lemma AdvancesTransitive(s: Store, t: Store, u: Store)
    requires Advances(s, t) && Advances(t, u) && WellOrdered(t.merges)
    ensures Advances(s, u)
  {
    forall k | k in s.links ensures k in u.links && u.links[k] == s.links[k].(entity := RootOf(u.merges, s.links[k].entity)) {
      RootsComposeOverTime(t.merges, u.merges, s.links[k].entity);
    }
  }

  // ---- each statement keeps it --------------------------------------------------------

  lemma EmptyStoreIsSound(order: RowOrder)
    ensures Inv(EmptyStore(order)) && Typed(EmptyStore(order))
  {
  }

  lemma CreateEntityKeeps(s: Store, entityType: EntityType, record: RecordId, id: EntityId)
    requires Inv(s) && id !in s.entities
    ensures var t := CreateEntity(s, entityType, record, id); Inv(t) && Advances(s, t) && IsActive(t, id)
    ensures Typed(s) ==> Typed(CreateEntity(s, entityType, record, id))
  {
    AdvancesRefl(s);
  }

  lemma LinkRecordKeeps(s: Store, key: LinkKey, link: RecordLink)
    requires Inv(s) && IsActive(s, link.entity)
    ensures var t := LinkRecord(s, key, link); Inv(t) && Advances(s, t) && key in t.links
    ensures Typed(s) && s.entities[link.entity].entityType == link.entityType ==> Typed(LinkRecord(s, key, link))
  {
    AdvancesRefl(s);
  }

  lemma HasKeyGrows(few: seq<KeyRow>, more: seq<KeyRow>, e: EntityId, m: Marker)
    requires few <= more && HasKey(few, e, m)
    ensures HasKey(more, e, m)
  {
    var i :| 0 <= i < |few| && few[i].entity == e && RowMarker(few[i]) == m;
    assert more[i] == few[i];
  }

  lemma {:induction false} WithKeysAre(rows: seq<KeyRow>, e: EntityId, entityType: EntityType, record: RecordId, ks: seq<IdentityKey>)
    requires KeysUnique(rows)
    ensures var out := WithKeys(rows, e, entityType, record, ks);
      && rows <= out && KeysUnique(out)
      && (forall i :: |rows| <= i < |out| ==> out[i].entity == e && out[i].entityType == entityType)
      && (forall k :: k in ks ==> HasKey(out, e, MarkerOf(k)))
  {
    if ks != [] {
      var init, last := ks[..|ks| - 1], ks[|ks| - 1];
      WithKeysAre(rows, e, entityType, record, init);
      var before, out := WithKeys(rows, e, entityType, record, init), WithKeys(rows, e, entityType, record, ks);
      assert before <= out;
      if !HasKey(before, e, MarkerOf(last)) { assert out[|before|] == RowFor(e, entityType, record, last); }
      forall k | k in ks ensures HasKey(out, e, MarkerOf(k)) {
        if k in init { HasKeyGrows(before, out, e, MarkerOf(k)); }
      }
    }
  }

  lemma AddKeysKeeps(s: Store, e: EntityId, entityType: EntityType, record: RecordId, ks: seq<IdentityKey>)
    requires Inv(s) && IsActive(s, e)
    ensures var t := AddKeys(s, e, entityType, record, ks);
      Inv(t) && Advances(s, t) && forall k :: k in ks ==> HasKey(t.keys, e, MarkerOf(k))
    ensures Typed(s) && s.entities[e].entityType == entityType ==> Typed(AddKeys(s, e, entityType, record, ks))
  {
    var t := AddKeys(s, e, entityType, record, ks);
    WithKeysAre(s.keys, e, entityType, record, ks);
    AdvancesRefl(s);
    ActiveIsRoot(s, e);
    forall i | 0 <= i < |t.keys| ensures HasKey(t.keys, RootOf(t.merges, t.keys[i].entity), RowMarker(t.keys[i])) {
      if i < |s.keys| {
        assert t.keys[i] == s.keys[i];
        HasKeyGrows(s.keys, t.keys, RootOf(s.merges, s.keys[i].entity), RowMarker(s.keys[i]));
      }
    }
    forall i | 0 <= i < |t.keys| ensures t.keys[i].entity in t.entities {
      if i < |s.keys| { assert t.keys[i] == s.keys[i]; }
    }
    if Typed(s) && s.entities[e].entityType == entityType {
      forall i | 0 <= i < |t.keys| ensures t.keys[i].entityType == t.entities[t.keys[i].entity].entityType {
        if i < |s.keys| { assert t.keys[i] == s.keys[i]; }
      }
    }
  }

  /** Nothing but the candidates' own condition looks at candidates. */
  lemma OtherCandidatesSameRest(s: Store, candidates: map<CandidateId, Candidate>)
    ensures var t := s.(candidates := candidates);
      && (Forest(t) <==> Forest(s)) && (LinksActive(t) <==> LinksActive(s)) && (KeysOwned(t) <==> KeysOwned(s))
      && (KeyIndexComplete(t) <==> KeyIndexComplete(s))
  {
    hide HasKey, RootOf, WellOrdered, AbsorbedIn;
  }

  lemma CandidateIsFiled(s: Store, id: CandidateId, c: Candidate)
    requires CandidatesFiled(s) && id.entity in s.entities && LinkKey(id.record, Self) in s.links
    ensures var t := RecordCandidate(s, id, c);
      && CandidatesFiled(t) && t == s.(candidates := t.candidates)
      && forall other :: other in s.candidates ==>
           other in t.candidates && t.candidates[other].entityType == s.candidates[other].entityType
  {
  }

  lemma RecordCandidateKeeps(s: Store, id: CandidateId, c: Candidate)
    requires Inv(s) && id.entity in s.entities && LinkKey(id.record, Self) in s.links
    ensures Inv(RecordCandidate(s, id, c)) && Advances(s, RecordCandidate(s, id, c))
  {
    AdvancesRefl(s);
    hide Forest, LinksActive, KeysOwned, KeyIndexComplete, CandidatesFiled, KeysUnique, RecordCandidate, RootOf;
    CandidateIsFiled(s, id, c);
    OtherCandidatesSameRest(s, RecordCandidate(s, id, c).candidates);
  }

  lemma RecordCandidateKeepsTypes(s: Store, id: CandidateId, c: Candidate)
    requires Typed(s) && id.entity in s.entities && s.entities[id.entity].entityType == c.entityType
    ensures Typed(RecordCandidate(s, id, c))
  {
    var t := RecordCandidate(s, id, c);
    forall other | other in t.candidates && other.entity in t.entities
      ensures t.candidates[other].entityType == t.entities[other.entity].entityType
    {
      if other != id { assert t.candidates[other] == s.candidates[other]; }
    }
  }

  lemma CloseKeepsTypes(s: Store, id: CandidateId, status: CandidateStatus)
    requires id in s.candidates
    ensures TypedCandidates(s) <==> TypedCandidates(CloseCandidate(s, id, status))
  {
    var t := CloseCandidate(s, id, status);
    forall c | c in s.candidates ensures c in t.candidates && t.candidates[c].entityType == s.candidates[c].entityType {}
    if TypedCandidates(t) {
      forall c | c in s.candidates && c.entity in s.entities
        ensures s.candidates[c].entityType == s.entities[c.entity].entityType
      {
        assert c in t.candidates;
      }
    }
  }

  lemma CloseCandidateKeeps(s: Store, id: CandidateId, status: CandidateStatus)
    requires Inv(s) && id in s.candidates
    ensures var t := CloseCandidate(s, id, status); Inv(t) && Advances(s, t)
    ensures Typed(s) <==> Typed(CloseCandidate(s, id, status))
  {
    hide TypedCandidates, KeysUnique;
    AdvancesRefl(s);
    CloseKeepsTypes(s, id, status);
  }


  function CopiesOf(rows: seq<KeyRow>, from: EntityId, to: EntityId): set<KeyRow> {
    set r | r in rows && r.entity == from :: r.(entity := to)
  }

  lemma CopiesAppend(rows: seq<KeyRow>, last: KeyRow, from: EntityId, to: EntityId)
    ensures CopiesOf(rows + [last], from, to) == CopiesOf(rows, from, to) + (if last.entity == from then {last.(entity := to)} else {})
  {
    assert forall r :: r in rows + [last] <==> r in rows || r == last;
  }

  lemma {:induction false} CopyKeysAre(rows: seq<KeyRow>, some: seq<KeyRow>, from: EntityId, to: EntityId)
    requires KeysUnique(rows)
    ensures var out := CopyKeys(rows, some, from, to);
      && rows <= out && KeysUnique(out)
      && (forall i :: |rows| <= i < |out| ==>
            out[i].entity == to && out[i] in CopiesOf(some, from, to))
      && (forall r :: r in some && r.entity == from ==> HasKey(out, to, RowMarker(r)))
  {
    if some != [] {
      var init, last := some[..|some| - 1], some[|some| - 1];
      CopyKeysAre(rows, init, from, to);
      assert some == init + [last];
      CopiesAppend(init, last, from, to);
      var before, out := CopyKeys(rows, init, from, to), CopyKeys(rows, some, from, to);
      assert before <= out;
      assert last in some;
      if last.entity == from && !HasKey(before, to, RowMarker(last)) { assert out[|before|] == last.(entity := to); }
      forall r | r in some && r.entity == from ensures HasKey(out, to, RowMarker(r)) {
        if r in init { HasKeyGrows(before, out, to, RowMarker(r)); }
      }
    }
  }

  lemma AppendMerge(log: seq<MergeRow>, row: MergeRow, id: EntityId)
    ensures RootOf(log + [row], id) == if RootOf(log, id) == row.merged then row.surviving else RootOf(log, id)
  {
    RootConcat(log, [row], id);
    assert [row][1..] == [];
  }

  lemma AppendKeepsOrder(log: seq<MergeRow>, row: MergeRow)
    requires WellOrdered(log) && row.merged != row.surviving
    requires !AbsorbedIn(log, row.merged) && !AbsorbedIn(log, row.surviving)
    ensures WellOrdered(log + [row])
  {
  }

  lemma MergeKeepsForest(s: Store, merged: EntityId, surviving: EntityId, entityType: EntityType, confidence: nat)
    requires Forest(s) && IsActive(s, merged) && IsActive(s, surviving) && merged != surviving
    ensures Forest(MergeEntities(s, merged, surviving, entityType, confidence))
  {
    var t := MergeEntities(s, merged, surviving, entityType, confidence);
    ActiveIsRoot(s, merged);
    ActiveIsRoot(s, surviving);
    var n := |s.merges|;
    AppendKeepsOrder(s.merges, t.merges[n]);
    assert forall i :: 0 <= i < n ==> t.merges[i] == s.merges[i];
    forall e | e in t.entities && t.entities[e].status.Merged? ensures AbsorbedIn(t.merges, e) {
      if e == merged {
        assert t.merges[n].merged == e;
      } else {
        var i :| 0 <= i < n && s.merges[i].merged == e;
        assert t.merges[i].merged == e;
      }
    }
  }

  lemma MergeKeepsKeyIndex(s: Store, merged: EntityId, surviving: EntityId, entityType: EntityType, confidence: nat)
    requires Inv(s) && IsActive(s, merged) && IsActive(s, surviving) && merged != surviving
    ensures var t := MergeEntities(s, merged, surviving, entityType, confidence);
      s.keys <= t.keys && KeysOwned(t) && KeysUnique(t.keys) && KeyIndexComplete(t)
  {
    var t := MergeEntities(s, merged, surviving, entityType, confidence);
    CopyKeysAre(s.keys, s.keys, merged, surviving);
    forall i | 0 <= i < |t.keys|
      ensures t.keys[i].entity in t.entities
      ensures HasKey(t.keys, RootOf(t.merges, t.keys[i].entity), RowMarker(t.keys[i]))
    {
      AppendMerge(s.merges, t.merges[|s.merges|], t.keys[i].entity);
      if i < |s.keys| {
        assert t.keys[i] == s.keys[i];
        var root := RootOf(s.merges, s.keys[i].entity);
        if root == merged {
          var j :| 0 <= j < |s.keys| && s.keys[j].entity == merged && RowMarker(s.keys[j]) == RowMarker(s.keys[i]);
          assert s.keys[j] in s.keys;
        } else {
          HasKeyGrows(s.keys, t.keys, root, RowMarker(s.keys[i]));
        }
      } else {
        ActiveIsRoot(s, surviving);
      }
    }
  }

  /** A merge repoints the links of exactly the absorbed entity, to the one it becomes. */
  lemma MergeKeepsLinks(s: Store, merged: EntityId, surviving: EntityId, entityType: EntityType, confidence: nat)
    requires Forest(s) && LinksActive(s) && IsActive(s, merged) && IsActive(s, surviving) && merged != surviving
    ensures var t := MergeEntities(s, merged, surviving, entityType, confidence);
      && LinksActive(t)
      && forall k :: k in s.links ==>
           k in t.links && t.links[k] == s.links[k].(entity := RootOf(t.merges, s.links[k].entity))
  {
    var t := MergeEntities(s, merged, surviving, entityType, confidence);
    forall k | k in s.links
      ensures k in t.links && t.links[k] == s.links[k].(entity := RootOf(t.merges, s.links[k].entity))
      ensures IsActive(t, t.links[k].entity)
    {
      ActiveIsRoot(s, s.links[k].entity);
      AppendMerge(s.merges, t.merges[|s.merges|], s.links[k].entity);
    }
  }

  lemma MergeKeeps(s: Store, merged: EntityId, surviving: EntityId, entityType: EntityType, confidence: nat)
    requires Inv(s) && IsActive(s, merged) && IsActive(s, surviving) && merged != surviving
    ensures Inv(MergeEntities(s, merged, surviving, entityType, confidence))
    ensures Advances(s, MergeEntities(s, merged, surviving, entityType, confidence))
  {
    MergeKeepsForest(s, merged, surviving, entityType, confidence);
    MergeKeepsKeyIndex(s, merged, surviving, entityType, confidence);
    MergeKeepsLinks(s, merged, surviving, entityType, confidence);
  }

  lemma SameTypeMergeKeepsKeyTypes(s: Store, merged: EntityId, surviving: EntityId, entityType: EntityType, confidence: nat)
    requires KeysUnique(s.keys) && KeysOwned(s) && TypedKeys(s) && IsActive(s, merged) && IsActive(s, surviving)
    requires s.entities[merged].entityType == s.entities[surviving].entityType
    ensures TypedKeys(MergeEntities(s, merged, surviving, entityType, confidence))
  {
    var t := MergeEntities(s, merged, surviving, entityType, confidence);
    CopyKeysAre(s.keys, s.keys, merged, surviving);
    forall i | 0 <= i < |t.keys| && t.keys[i].entity in t.entities
      ensures t.keys[i].entityType == t.entities[t.keys[i].entity].entityType
    {
      if i < |s.keys| {
        assert t.keys[i] == s.keys[i];
      } else {
        var r :| r in s.keys && r.entity == merged && t.keys[i] == r.(entity := surviving);
        var j :| 0 <= j < |s.keys| && s.keys[j] == r;
      }
    }
  }

  lemma SameTypeMergeKeepsMergeTypes(s: Store, merged: EntityId, surviving: EntityId, entityType: EntityType, confidence: nat)
    requires Forest(s) && TypedMerges(s) && IsActive(s, merged) && IsActive(s, surviving)
    requires s.entities[merged].entityType == s.entities[surviving].entityType
    ensures TypedMerges(MergeEntities(s, merged, surviving, entityType, confidence))
  {
    var t := MergeEntities(s, merged, surviving, entityType, confidence);
    forall i | 0 <= i < |t.merges| && t.merges[i].merged in t.entities && t.merges[i].surviving in t.entities
      ensures t.entities[t.merges[i].merged].entityType == t.entities[t.merges[i].surviving].entityType
    {
      if i < |s.merges| { assert t.merges[i] == s.merges[i]; }
    }
  }

  lemma SameTypeMergeKeepsOtherTypes(s: Store, merged: EntityId, surviving: EntityId, entityType: EntityType, confidence: nat)
    requires LinksActive(s) && TypedLinks(s) && TypedCandidates(s) && IsActive(s, merged) && IsActive(s, surviving)
    requires s.entities[merged].entityType == s.entities[surviving].entityType
    ensures TypedLinks(MergeEntities(s, merged, surviving, entityType, confidence))
    ensures TypedCandidates(MergeEntities(s, merged, surviving, entityType, confidence))
  {
  }

  /** A merge keeps types exactly when it joins two entities of one type. */
  lemma MergeKeepsTypesIff(s: Store, merged: EntityId, surviving: EntityId, entityType: EntityType, confidence: nat)
    requires Inv(s) && Typed(s) && IsActive(s, merged) && IsActive(s, surviving) && merged != surviving
    ensures Typed(MergeEntities(s, merged, surviving, entityType, confidence))
       <==> s.entities[merged].entityType == s.entities[surviving].entityType
  {
    if s.entities[merged].entityType == s.entities[surviving].entityType {
      SameTypeMergeKeepsKeyTypes(s, merged, surviving, entityType, confidence);
      SameTypeMergeKeepsMergeTypes(s, merged, surviving, entityType, confidence);
      SameTypeMergeKeepsOtherTypes(s, merged, surviving, entityType, confidence);
    } else {
      var t := MergeEntities(s, merged, surviving, entityType, confidence);
      assert t.merges[|s.merges|].merged == merged && t.merges[|s.merges|].surviving == surviving;
    }
  }

  // ---- each operation keeps it ----------------------------------------------------------

  lemma JoinKeeps(s: Store, r: Subject, m: Match)
    requires Inv(s) && IsActive(s, m.entityId)
    ensures var t := AddKeys(LinkRecord(s, LinkKey(r.record, r.role), LinkRow(r, m.entityId, ByKey(m.strongest), m.confidence, AutoLinked)),
                             m.entityId, r.entityType, r.record, r.keys);
      && Inv(t) && Advances(s, t) && LinkKey(r.record, r.role) in t.links && IsActive(t, m.entityId)
      && (Typed(s) && s.entities[m.entityId].entityType == r.entityType ==> Typed(t))
  {
    var link := LinkRow(r, m.entityId, ByKey(m.strongest), m.confidence, AutoLinked);
    var linked := LinkRecord(s, LinkKey(r.record, r.role), link);
    LinkRecordKeeps(s, LinkKey(r.record, r.role), link);
    AddKeysKeeps(linked, m.entityId, r.entityType, r.record, r.keys);
    AdvancesTransitive(s, linked, AddKeys(linked, m.entityId, r.entityType, r.record, r.keys));
  }

  lemma FoundKeeps(s: Store, r: Subject, link: RecordLink)
    requires Inv(s) && r.newId !in s.entities && link.entity == r.newId && link.entityType == r.entityType
    ensures var t := LinkRecord(CreateEntity(s, r.entityType, r.record, r.newId), LinkKey(r.record, r.role), link);
      && Inv(t) && Advances(s, t) && LinkKey(r.record, r.role) in t.links && IsActive(t, r.newId)
      && t.entities[r.newId].entityType == r.entityType
      && (Typed(s) ==> Typed(t))
      && s.links.Keys <= t.links.Keys && s.candidates == t.candidates
  {
    CreateEntityKeeps(s, r.entityType, r.record, r.newId);
    var made := CreateEntity(s, r.entityType, r.record, r.newId);
    LinkRecordKeeps(made, LinkKey(r.record, r.role), link);
    AdvancesTransitive(s, made, LinkRecord(made, LinkKey(r.record, r.role), link));
  }

  lemma ReviewKeeps(s: Store, known: Store, r: Subject, m: Match)
    requires Inv(known) && Advances(s, known) && m.entityId in s.entities && LinkKey(r.record, Self) in known.links
    ensures var t := RecordCandidate(known, CandidateId(r.record, m.entityId), Candidate(r.entityType, m.strongest, m.confidence, Open));
      && Inv(t) && Advances(s, t)
  {
    var id := CandidateId(r.record, m.entityId);
    var c := Candidate(r.entityType, m.strongest, m.confidence, Open);
    RecordCandidateKeeps(known, id, c);
    AdvancesTransitive(s, known, RecordCandidate(known, id, c));
  }

  lemma DecisionReachesType(s: Store, r: Subject)
    requires Inv(s) && CandidatesFor(s, r.entityType, r.keys).best.Some?
    ensures var e := CandidatesFor(s, r.entityType, r.keys).best.value.entityId;
      IsActive(s, e) && (Typed(s) ==> s.entities[e].entityType == r.entityType)
  {
    var row := DecisionReachesRow(s, r.entityType, r.keys);
    var i :| 0 <= i < |s.keys| && s.keys[i] == row;
  }

  lemma NewEntityKeeps(s: Store, r: Subject, link: RecordLink)
    requires Inv(s) && r.newId !in s.entities && link.entity == r.newId && link.entityType == r.entityType
    ensures var t := AddKeys(LinkRecord(CreateEntity(s, r.entityType, r.record, r.newId), LinkKey(r.record, r.role), link),
                             r.newId, r.entityType, r.record, r.keys);
      && Inv(t) && Advances(s, t) && LinkKey(r.record, r.role) in t.links && IsActive(t, r.newId)
      && (Typed(s) ==> Typed(t))
      && s.links.Keys <= t.links.Keys
  {
    FoundKeeps(s, r, link);
    var linked := LinkRecord(CreateEntity(s, r.entityType, r.record, r.newId), LinkKey(r.record, r.role), link);
    AddKeysKeeps(linked, r.newId, r.entityType, r.record, r.keys);
    AdvancesTransitive(s, linked, AddKeys(linked, r.newId, r.entityType, r.record, r.keys));
  }

  /** The link of a record that becomes its own entity names the best match it fell short of. */
  function ShortfallLink(r: Subject, best: Option<Match>): RecordLink {
    LinkRow(r, r.newId, if best.Some? then ByKey(best.value.strongest) else NoMatch,
            if best.Some? then best.value.confidence else 0, NewEntity)
  }

  function AsNewEntity(s: Store, r: Subject, best: Option<Match>): Store {
    AddKeys(LinkRecord(CreateEntity(s, r.entityType, r.record, r.newId), LinkKey(r.record, r.role), ShortfallLink(r, best)),
            r.newId, r.entityType, r.record, r.keys)
  }

  function AsNewOrReview(s: Store, r: Subject, d: Decision): Store
    requires d.kind == Review ==> d.best.Some?
  {
    if d.kind == Review then
      RecordCandidate(AsNewEntity(s, r, d.best), CandidateId(r.record, d.best.value.entityId),
                      Candidate(r.entityType, d.best.value.strongest, d.best.value.confidence, Open))
    else AsNewEntity(s, r, d.best)
  }

  lemma ApplyNewIs(s: Store, r: Subject, d: Decision)
    requires d.kind != Link && (d.kind == Review ==> d.best.Some?)
    ensures ApplyDecision(s, r, Some(d)).entity == r.newId
    ensures ApplyDecision(s, r, Some(d)).store == AsNewOrReview(s, r, d)
  {
  }

  lemma AsNewOrReviewKeeps(s: Store, r: Subject, d: Decision)
    requires Inv(s) && r.newId !in s.entities
    requires r.role == Self || LinkKey(r.record, Self) in s.links
    requires d.kind == Review ==> d.best.Some? && d.best.value.entityId in s.entities
    ensures Inv(AsNewOrReview(s, r, d)) && Advances(s, AsNewOrReview(s, r, d))
    ensures LinkKey(r.record, r.role) in AsNewOrReview(s, r, d).links && IsActive(AsNewOrReview(s, r, d), r.newId)
  {
    hide Inv, Advances, Typed, AddKeys, LinkRecord, CreateEntity;
    NewEntityKeeps(s, r, ShortfallLink(r, d.best));
    if d.kind == Review { ReviewKeeps(s, AsNewEntity(s, r, d.best), r, d.best.value); }
  }

  lemma AsNewOrReviewKeepsTypes(s: Store, r: Subject, d: Decision)
    requires Inv(s) && Typed(s) && r.newId !in s.entities
    requires d.kind == Review ==>
      d.best.Some? && d.best.value.entityId in s.entities && s.entities[d.best.value.entityId].entityType == r.entityType
    ensures Typed(AsNewOrReview(s, r, d))
  {
    NewEntityKeeps(s, r, ShortfallLink(r, d.best));
    if d.kind == Review {
      RecordCandidateKeepsTypes(AsNewEntity(s, r, d.best), CandidateId(r.record, d.best.value.entityId),
                                Candidate(r.entityType, d.best.value.strongest, d.best.value.confidence, Open));
    }
  }

  lemma ResolveKeeps(s: Store, r: Subject)
    requires Inv(s) && r.newId !in s.entities
    requires r.role == Self || LinkKey(r.record, Self) in s.links
    ensures Inv(Resolve(s, r).store) && Advances(s, Resolve(s, r).store)
    ensures LinkKey(r.record, r.role) in Resolve(s, r).store.links && IsActive(Resolve(s, r).store, Resolve(s, r).entity)
    ensures Typed(s) ==> Typed(Resolve(s, r).store)
  {
    var d := DecisionFor(s, r);
    if d.None? {
      FoundKeeps(s, r, LinkRow(r, r.newId, NoIdentityKeys, 0, NewEntity));
    } else {
      if d.value.best.Some? { DecisionReachesType(s, r); }
      if d.value.kind == Link {
        JoinKeeps(s, r, d.value.best.value);
      } else {
        ApplyNewIs(s, r, d.value);
        AsNewOrReviewKeeps(s, r, d.value);
        if Typed(s) { AsNewOrReviewKeepsTypes(s, r, d.value); }
      }
    }
  }

  /** What a decision leaves in the tables, whichever it is. */
  ghost predicate Written(s: Store, r: Subject, a: Applied) {
    var k := LinkKey(r.record, r.role);
    && k in a.store.links && a.store.links[k].entity == a.entity
    && (a.kind == Link <==> a.store.links[k].matchStatus == AutoLinked)
    && (a.kind == Link ==> a.entity != r.newId && a.store.entities == s.entities)
    && (a.kind != Link ==> a.entity == r.newId && a.store.entities == s.entities[r.newId := Entity(r.entityType, Active, r.record)])
    && (a.kind != Review ==> a.store.candidates == s.candidates)
  }

  lemma AppliedIsWritten(s: Store, r: Subject, d: Option<Decision>)
    requires d.Some? && d.value.kind != New ==> d.value.best.Some?
    requires d.Some? && d.value.kind == Link ==> d.value.best.value.entityId in s.entities
    requires LinkKey(r.record, r.role) !in s.links && r.newId !in s.entities
    ensures Written(s, r, ApplyDecision(s, r, d))
    ensures var a := ApplyDecision(s, r, d);
      d.Some? ==> a.store.keys == WithKeys(s.keys, a.entity, r.entityType, r.record, r.keys)
    ensures d.Some? ==> ApplyDecision(s, r, d).kind == d.value.kind
    ensures d.Some? && d.value.kind == Review ==>
      var id := CandidateId(r.record, d.value.best.value.entityId);
      && id in ApplyDecision(s, r, d).store.candidates
      && forall other :: other in s.candidates && other != id ==>
           other in ApplyDecision(s, r, d).store.candidates && ApplyDecision(s, r, d).store.candidates[other] == s.candidates[other]
  {
    hide WithKeys;
  }

  /** No match the decision weighed is more confident. */
  ghost predicate Top(d: Decision, m: Match) {
    m in d.considered && forall n :: n in d.considered ==> n.confidence <= m.confidence
  }

  /** How the record's link says it was matched: by the best match, linked to it or short of it, or by nothing. */
  ghost predicate LinkTells(r: Subject, link: RecordLink, d: Option<Decision>) {
    && link.entityType == r.entityType && link.batch == r.batch && link.sourceId == r.sourceId
    && (d.None? ==> link.matchMethod == NoIdentityKeys && link.confidence == 0)
    && (d.Some? && d.value.considered == [] ==> link.matchMethod == NoMatch && link.confidence == 0)
    && (d.Some? && d.value.considered != [] ==>
          exists m :: Top(d.value, m) && link.matchMethod == ByKey(m.strongest) && link.confidence == m.confidence
                      && (link.matchStatus == AutoLinked ==> link.entity == m.entityId))
  }

  /** The proposal a review leaves: a new one says all of the match, an open one is refreshed, a decided one stands. */
  ghost predicate Proposed(was: map<CandidateId, Candidate>, now: map<CandidateId, Candidate>, r: Subject, m: Match) {
    var id := CandidateId(r.record, m.entityId);
    && now.Keys == was.Keys + {id} && (forall other :: other in was && other != id ==> now[other] == was[other])
    && now[id] ==
         if id !in was then Candidate(r.entityType, m.strongest, m.confidence, Open)
         else if was[id].status == Open then Candidate(was[id].entityType, m.strongest, m.confidence, Open)
         else was[id]
  }

  lemma AppliedTells(s: Store, r: Subject, d: Option<Decision>)
    requires d.Some? && d.value.kind != New ==> d.value.best.Some?
    requires d.Some? ==> (d.value.best.None? <==> d.value.considered == []) && (d.value.best.Some? ==> Top(d.value, d.value.best.value))
    requires LinkKey(r.record, r.role) !in s.links
    ensures var a, k := ApplyDecision(s, r, d), LinkKey(r.record, r.role);
      && a.store.merges == s.merges && k in a.store.links && a.store.links == s.links[k := a.store.links[k]]
      && LinkTells(r, a.store.links[k], d) && (d.None? ==> a.kind == New)
      && (d.Some? && d.value.kind == Review ==> Proposed(s.candidates, a.store.candidates, r, d.value.best.value))
  {
    hide WithKeys, Top;
  }

  lemma DecisionNamesTop(s: Store, r: Subject)
    ensures var d := DecisionFor(s, r);
      && (d.None? <==> r.keys == [])
      && (d.Some? ==> (d.value.best.None? <==> d.value.considered == []) && (d.value.best.Some? ==> Top(d.value, d.value.best.value)))
  {
    if r.keys != [] {
      var os := Overlaps(FindCandidates(s, r.entityType, r.keys), r.keys);
      hide Overlaps, FindCandidates, Decide, Scored;
      DecisionIs(r.entityType, os);
      SameMultisetSameMembers(Decide(r.entityType, os).considered, Scored(r.entityType, os));
    }
  }

  /**
   * What resolving a subject means: a link joins the record to an entity that was there and proposes
   * nothing; otherwise the record gets an entity of its own, and for review, and only then, a proposal
   * naming the best candidate is on file. Link and proposal carry the most confident match, no other link
   * or proposal changes, and either way the entity can be found by every key of the record.
   */
  lemma DecisionIsWritten(s: Store, r: Subject)
    requires Inv(s) && LinkKey(r.record, r.role) !in s.links && r.newId !in s.entities
    ensures var a, d, k := Resolve(s, r), DecisionFor(s, r), LinkKey(r.record, r.role);
      && Written(s, r, a) && a.store.merges == s.merges
      && (d.None? <==> r.keys == []) && a.store.links == s.links[k := a.store.links[k]] && LinkTells(r, a.store.links[k], d)
      && (forall k :: k in r.keys ==> HasKey(a.store.keys, a.entity, MarkerOf(k)))
      && (a.kind == Review ==>
            d.Some? && exists m :: Top(d.value, m) && m.entityId in s.entities && Proposed(s.candidates, a.store.candidates, r, m))
  {
    hide ApplyDecision, DecisionFor, Proposed, LinkTells, Top, WithKeys;
    var d := DecisionFor(s, r);
    DecisionNamesTop(s, r);
    if d.Some? && d.value.best.Some? { BestIsThere(s, r); }
    AppliedIsWritten(s, r, d);
    AppliedTells(s, r, d);
    WithKeysAre(s.keys, Resolve(s, r).entity, r.entityType, r.record, r.keys);
  }

  lemma BestIsThere(s: Store, r: Subject)
    requires Inv(s) && DecisionFor(s, r).Some? && DecisionFor(s, r).value.best.Some?
    ensures DecisionFor(s, r).value.best.value.entityId in s.entities
  {
    DecisionReachesType(s, r);
  }

  lemma MergingArgumentsAreActive(s: Store, id: CandidateId)
    requires Forest(s) && AcceptanceOf(s, id).Merging?
    ensures var a := AcceptanceOf(s, id);
      && IsActive(s, a.merged) && IsActive(s, a.surviving) && a.merged != a.surviving
      && a.merged == RootOf(s.merges, s.links[LinkKey(id.record, Self)].entity)
      && a.surviving == RootOf(s.merges, id.entity)
  {
    var self := s.links[LinkKey(id.record, Self)].entity;
    ResolvesIffWithinFifteenHops(s, id.entity);
    ResolvesIffWithinFifteenHops(s, self);
    RootIsActive(s, id.entity);
    RootIsActive(s, self);
  }

  /** The candidate was filed for the record itself, not for its employer. */
  ghost predicate SelfFiled(s: Store, id: CandidateId)
    requires id in s.candidates && LinkKey(id.record, Self) in s.links
  {
    s.candidates[id].entityType == s.links[LinkKey(id.record, Self)].entityType
  }

  /** A merge and the close of its candidate, as one transaction. */
  function MergeAndClose(s: Store, id: CandidateId, merged: EntityId, surviving: EntityId): Store
    requires id in s.candidates
  {
    CloseCandidate(MergeEntities(s, merged, surviving, s.candidates[id].entityType, s.candidates[id].confidence), id, Accepted)
  }

  lemma MergeAndCloseKeeps(s: Store, id: CandidateId, merged: EntityId, surviving: EntityId)
    requires Inv(s) && id in s.candidates && IsActive(s, merged) && IsActive(s, surviving) && merged != surviving
    ensures Inv(MergeAndClose(s, id, merged, surviving)) && Advances(s, MergeAndClose(s, id, merged, surviving))
    ensures Typed(s) ==>
      (Typed(MergeAndClose(s, id, merged, surviving)) <==> s.entities[merged].entityType == s.entities[surviving].entityType)
  {
    var c := s.candidates[id];
    var t := MergeEntities(s, merged, surviving, c.entityType, c.confidence);
    MergeKeeps(s, merged, surviving, c.entityType, c.confidence);
    CloseCandidateKeeps(t, id, Accepted);
    AdvancesTransitive(s, t, CloseCandidate(t, id, Accepted));
    if Typed(s) { MergeKeepsTypesIff(s, merged, surviving, c.entityType, c.confidence); }
  }

  lemma AcceptIs(s: Store, id: CandidateId)
    ensures AcceptanceOf(s, id).Merging? ==>
      id in s.candidates && Accept(s, id) == MergeAndClose(s, id, AcceptanceOf(s, id).merged, AcceptanceOf(s, id).surviving)
    ensures AcceptanceOf(s, id).AlreadyMerged? ==> id in s.candidates && Accept(s, id) == CloseCandidate(s, id, Accepted)
    ensures !AcceptanceOf(s, id).Merging? && !AcceptanceOf(s, id).AlreadyMerged? ==> Accept(s, id) == s
  {
  }

  lemma AcceptKeeps(s: Store, id: CandidateId)
    requires Inv(s)
    ensures Inv(Accept(s, id)) && Advances(s, Accept(s, id))
  {
    AcceptIs(s, id);
    match AcceptanceOf(s, id)
    case AlreadyMerged(_) => CloseCandidateKeeps(s, id, Accepted);
    case Merging(merged, surviving) =>
      MergingArgumentsAreActive(s, id);
      MergeAndCloseKeeps(s, id, merged, surviving);
    case _ => AdvancesRefl(s);
  }

  lemma {:induction false} RootKeepsType(s: Store, log: seq<MergeRow>, id: EntityId)
    requires Forest(s) && Typed(s) && id in s.entities && log <= s.merges
    ensures RootOf(log, id) in s.entities && s.entities[RootOf(log, id)].entityType == s.entities[id].entityType
    decreases |log|
  {
    if log != [] {
      var n := |log| - 1;
      assert log == log[..n] + [log[n]] && log[n] == s.merges[n];
      RootKeepsType(s, log[..n], id);
      AppendMerge(log[..n], log[n], id);
    }
  }

  /**
   * An accepted merge keeps every row's type exactly when the candidate was filed for the record
   * itself; one filed for the record's employer absorbs a person into a company.
   */
  lemma AcceptKeepsTypesIff(s: Store, id: CandidateId)
    requires Inv(s) && Typed(s)
    ensures Typed(Accept(s, id)) <==> (AcceptanceOf(s, id).Merging? ==> SelfFiled(s, id))
  {
    AcceptIs(s, id);
    match AcceptanceOf(s, id)
    case AlreadyMerged(_) => CloseCandidateKeeps(s, id, Accepted);
    case Merging(merged, surviving) =>
      MergingArgumentsAreActive(s, id);
      MergingTypes(s, id);
      MergeAndCloseKeeps(s, id, merged, surviving);
    case _ =>
  }

  lemma MergingTypes(s: Store, id: CandidateId)
    requires Inv(s) && Typed(s) && AcceptanceOf(s, id).Merging?
    ensures var a := AcceptanceOf(s, id);
      && a.merged in s.entities && a.surviving in s.entities
      && (s.entities[a.merged].entityType == s.entities[a.surviving].entityType <==> SelfFiled(s, id))
  {
    MergingArgumentsAreActive(s, id);
    RootKeepsType(s, s.merges, id.entity);
    RootKeepsType(s, s.merges, s.links[LinkKey(id.record, Self)].entity);
  }

  // ---- whole runs --------------------------------------------------------------------------

  datatype Op = ResolveOp(self: Subject, employer: Option<Subject>) | AcceptOp(id: CandidateId) | RejectOp(id: CandidateId)

  /** The record is not linked yet, and the ids it may take are unused: otherwise nothing is written. */
  predicate CanResolve(s: Store, self: Subject, employer: Option<Subject>) {
    && self.role == Self && LinkKey(self.record, Self) !in s.links && self.newId !in s.entities
    && (employer.Some? ==>
          && employer.value.role == Employer && employer.value.record == self.record
          && employer.value.newId !in s.entities && employer.value.newId != self.newId)
  }

  /** The record itself, then the employer it names. */
  function ResolveRecord(s: Store, self: Subject, employer: Option<Subject>): Store {
    var first := Resolve(s, self).store;
    if employer.None? then first else Resolve(first, employer.value).store
  }

  function Step(s: Store, op: Op): Store {
    match op
    case ResolveOp(self, employer) => if CanResolve(s, self, employer) then ResolveRecord(s, self, employer) else s
    case AcceptOp(id) => Accept(s, id)
    case RejectOp(id) => Reject(s, id)
  }

  function Run(s: Store, ops: seq<Op>): Store
    decreases |ops|
  {
    if ops == [] then s else Run(Step(s, ops[0]), ops[1..])
  }

  lemma {:induction false} RunConcat(s: Store, a: seq<Op>, b: seq<Op>)
    ensures Run(s, a + b) == Run(Run(s, a), b)
    decreases |a|
  {
    if a == [] {
      assert a + b == b;
    } else {
      assert (a + b)[1..] == a[1..] + b;
      RunConcat(Step(s, a[0]), a[1..], b);
    }
  }

  lemma RunOneMore(s: Store, ops: seq<Op>, op: Op)
    ensures Run(s, ops + [op]) == Step(Run(s, ops), op)
  {
    hide Step;
    RunConcat(s, ops, [op]);
    assert [op][1..] == [];
    assert Run(Run(s, ops), [op]) == Run(Step(Run(s, ops), op), []);
  }

  lemma AppliedEntities(s: Store, r: Subject, d: Option<Decision>)
    requires d.Some? && d.value.kind != New ==> d.value.best.Some?
    ensures ApplyDecision(s, r, d).store.entities.Keys <= s.entities.Keys + {r.newId}
  {
    hide WithKeys;
  }

  lemma ResolveEntities(s: Store, r: Subject)
    ensures Resolve(s, r).store.entities.Keys <= s.entities.Keys + {r.newId}
  {
    hide ApplyDecision, DecisionFor;
    AppliedEntities(s, r, DecisionFor(s, r));
  }

  lemma ResolveRecordKeeps(s: Store, self: Subject, employer: Option<Subject>)
    requires Inv(s) && CanResolve(s, self, employer)
    ensures Inv(ResolveRecord(s, self, employer)) && Advances(s, ResolveRecord(s, self, employer))
    ensures Typed(s) ==> Typed(ResolveRecord(s, self, employer))
    ensures LinkKey(self.record, Self) in ResolveRecord(s, self, employer).links
  {
    ResolveKeeps(s, self);
    ResolveEntities(s, self);
    if employer.Some? {
      var first := Resolve(s, self).store;
      ResolveKeeps(first, employer.value);
      AdvancesTransitive(s, first, Resolve(first, employer.value).store);
    }
  }

  lemma StepKeeps(s: Store, op: Op)
    requires Inv(s)
    ensures Inv(Step(s, op)) && Advances(s, Step(s, op))
  {
    match op
    case ResolveOp(self, employer) =>
      if CanResolve(s, self, employer) { ResolveRecordKeeps(s, self, employer); } else { AdvancesRefl(s); }
    case AcceptOp(id) => AcceptKeeps(s, id);
    case RejectOp(id) =>
      if id in s.candidates && s.candidates[id].status == Open { CloseCandidateKeeps(s, id, Rejected); } else { AdvancesRefl(s); }
  }

  lemma {:induction false} RunKeeps(s: Store, ops: seq<Op>)
    requires Inv(s)
    ensures Inv(Run(s, ops)) && Advances(s, Run(s, ops))
    decreases |ops|
  {
    if ops == [] {
      AdvancesRefl(s);
    } else {
      StepKeeps(s, ops[0]);
      RunKeeps(Step(s, ops[0]), ops[1..]);
      AdvancesTransitive(s, Step(s, ops[0]), Run(s, ops));
    }
  }

  /**
   * Stable ids, over every run: a record's link always points at an active entity, which is what the
   * entity it was linked to at any earlier time has become; no id disappears or changes type.
   */
  lemma LinksFollowTheirFirstEntity(order: RowOrder, before: seq<Op>, after: seq<Op>, k: LinkKey)
    requires k in Run(EmptyStore(order), before).links
    ensures var s, t := Run(EmptyStore(order), before), Run(EmptyStore(order), before + after);
      && k in t.links
      && IsActive(t, t.links[k].entity)
      && t.links[k].entity == RootOf(t.merges, s.links[k].entity)
      && s.links[k].entity in s.entities
      && s.links[k].entity in t.entities
      && t.entities[s.links[k].entity].entityType == s.entities[s.links[k].entity].entityType
  {
    var s := Run(EmptyStore(order), before);
    RunKeeps(EmptyStore(order), before);
    RunKeeps(s, after);
    RunConcat(EmptyStore(order), before, after);
  }

  /** Once two ids have become the same entity they stay the same entity. */
  lemma SharedRootIsForever(order: RowOrder, before: seq<Op>, after: seq<Op>, a: EntityId, b: EntityId)
    requires RootOf(Run(EmptyStore(order), before).merges, a) == RootOf(Run(EmptyStore(order), before).merges, b)
    ensures RootOf(Run(EmptyStore(order), before + after).merges, a) == RootOf(Run(EmptyStore(order), before + after).merges, b)
  {
    var s := Run(EmptyStore(order), before);
    RunKeeps(EmptyStore(order), before);
    RunKeeps(s, after);
    RunConcat(EmptyStore(order), before, after);
    RootsComposeOverTime(s.merges, Run(s, after).merges, a);
    RootsComposeOverTime(s.merges, Run(s, after).merges, b);
  }

  /** Every id ever handed out resolves to its root while at most 15 hops from it, in every reachable state. */
  lemma HandedOutIdsResolveIff(order: RowOrder, ops: seq<Op>, id: EntityId)
    requires id in Run(EmptyStore(order), ops).entities
    ensures var s := Run(EmptyStore(order), ops);
      && IsActive(s, RootOf(s.merges, id))
      && (ResolveEntityId(s, id) == Found(RootOf(s.merges, id)) <==> Hops(s.merges, id) <= 15)
      && (Hops(s.merges, id) > 15 ==> ResolveEntityId(s, id) == Unterminated)
      && Hops(s.merges, id) <= |s.merges|
      && |ActiveEntities(s)| + |s.merges| == |s.entities|
  {
    var s := Run(EmptyStore(order), ops);
    RunKeeps(EmptyStore(order), ops);
    RootIsActive(s, id);
    ResolvesIffWithinFifteenHops(s, id);
    ActiveCount(s);
  }
}
