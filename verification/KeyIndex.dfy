/**
 * Whether a recorded key still brings its owner into decisions. A merge copies the absorbed entity's
 * key rows with the type each row has, unless the survivor already holds the key; so it hides a key
 * exactly when the survivor holds it under another type.
 */
module KeyIndex {
  import opened Ordering
  import opened Sequences
  import opened Keys
  import opened Scoring
  import opened EntityStore
  import opened MergeForest
  import opened StableIds

  // ---- what a decision weighs -----------------------------------------------------------------

  function Weighed(d: Decision): set<EntityId> { set m | m in d.considered :: m.entityId }

  function Owners(rows: seq<KeyRow>): set<EntityId> { set row | row in rows :: row.entity }

  lemma WeighedAreScored(entityType: EntityType, os: seq<Overlap>, rows: seq<KeyRow>, keys: seq<IdentityKey>)
    requires forall o :: o in os ==> OverlapOf(o, rows, keys)
    ensures Weighed(Decide(entityType, os)) == Reached(os)
  {
    hide Score, SortMatches;
    var d := Decide(entityType, os);
    ScoredComesFromCandidates(entityType, os);
    SortMatchesShape(Scored(entityType, os));
    SameMultisetSameMembers(d.considered, Scored(entityType, os));
    forall e ensures e in Weighed(d) <==> e in Reached(os) {
      if e in Weighed(d) {
        var m :| m in d.considered && m.entityId == e;
        assert m in Scored(entityType, os);
        var o :| o in os && o.matched != [] && m == Score(entityType, o.entityId, o.matched);
        ScoreNamesItsEntity(entityType, o);
      }
      if e in Reached(os) {
        var o :| o in os && o.entityId == e;
        assert OverlapOf(o, rows, keys);
        ScoreNamesItsEntity(entityType, o);
        assert Score(entityType, o.entityId, o.matched) in Scored(entityType, os);
      }
    }
  }

  lemma ScoreNamesItsEntity(entityType: EntityType, o: Overlap)
    requires o.matched != []
    ensures Score(entityType, o.entityId, o.matched).entityId == o.entityId
  {
  }

  lemma ReachedAreOwners(rows: seq<KeyRow>, keys: seq<IdentityKey>)
    ensures Reached(Overlaps(rows, keys)) == Owners(rows)
  {
    OverlapsAre(rows, keys);
    forall e | e in Reached(Overlaps(rows, keys)) ensures e in Owners(rows) {
      var o :| o in Overlaps(rows, keys) && o.entityId == e;
      assert OverlapOf(o, rows, keys) && o.matched[0] in o.matched;
    }
  }

  /** A decision weighs exactly the owners of the rows its lookup finds. */
  lemma WeighedAreOwners(s: Store, entityType: EntityType, keys: seq<IdentityKey>)
    ensures Weighed(CandidatesFor(s, entityType, keys)) == Owners(FindCandidates(s, entityType, keys))
  {
    hide Decide, Overlaps, FindCandidates;
    var rows := FindCandidates(s, entityType, keys);
    OverlapsAre(rows, keys);
    ReachedAreOwners(rows, keys);
    WeighedAreScored(entityType, Overlaps(rows, keys), rows, keys);
  }

  // ---- when a recorded key is found ---------------------------------------------------------------

  ghost predicate HoldsAs(rows: seq<KeyRow>, e: EntityId, entityType: EntityType, m: Marker) {
    exists i :: 0 <= i < |rows| && rows[i].entity == e && RowMarker(rows[i]) == m && rows[i].entityType == entityType
  }

  /** What the row's owner has become holds the row's key as a key of the row's type. */
  ghost predicate Live(s: Store, row: KeyRow) {
    HoldsAs(s.keys, RootOf(s.merges, row.entity), row.entityType, RowMarker(row))
  }

  ghost predicate AllLive(s: Store) {
    forall i :: 0 <= i < |s.keys| ==> Live(s, s.keys[i])
  }

  /** Every record carrying a recorded key, decided under the key's type, weighs what the key's owner has become. */
  ghost predicate EveryKeyFinds(s: Store) {
    forall row, keys :: row in s.keys && HasMarker(keys, RowMarker(row)) ==>
      RootOf(s.merges, row.entity) in Weighed(CandidatesFor(s, row.entityType, keys))
  }

  lemma LiveIsWeighed(s: Store, row: KeyRow, keys: seq<IdentityKey>)
    requires Inv(s) && row in s.keys && HasMarker(keys, RowMarker(row)) && Live(s, row)
    ensures RootOf(s.merges, row.entity) in Weighed(CandidatesFor(s, row.entityType, keys))
  {
    hide CandidatesFor, FindCandidates, Weighed, RootOf, KeyIndexComplete, KeysUnique, LinksActive, CandidatesFiled;
    var i :| 0 <= i < |s.keys| && s.keys[i] == row;
    RootIsActive(s, row.entity);
    var root := RootOf(s.merges, row.entity);
    var j :| 0 <= j < |s.keys| && s.keys[j].entity == root && RowMarker(s.keys[j]) == RowMarker(row)
             && s.keys[j].entityType == row.entityType;
    assert Findable(s, row.entityType, keys, s.keys[j]);
    FindCandidatesAre(s, row.entityType, keys);
    assert s.keys[j] in FindCandidates(s, row.entityType, keys);
    WeighedAreOwners(s, row.entityType, keys);
  }

  lemma WeighedIsLive(s: Store, row: KeyRow, k: IdentityKey)
    requires MarkerOf(k) == RowMarker(row)
    requires RootOf(s.merges, row.entity) in Weighed(CandidatesFor(s, row.entityType, [k]))
    ensures Live(s, row)
  {
    hide CandidatesFor, FindCandidates, Weighed, RootOf;
    WeighedAreOwners(s, row.entityType, [k]);
    FindCandidatesAre(s, row.entityType, [k]);
    var found :| found in FindCandidates(s, row.entityType, [k]) && found.entity == RootOf(s.merges, row.entity);
    var i :| 0 <= i < |s.keys| && s.keys[i] == found;
    assert RowMarker(s.keys[i]) == RowMarker(row);
  }

  /** A key finds its owner for every record that carries it exactly when it is held under its own type. */
  lemma EveryKeyFindsIff(s: Store)
    requires Inv(s)
    ensures EveryKeyFinds(s) <==> AllLive(s)
  {
    hide CandidatesFor, Weighed, RootOf, Inv, Live;
    if AllLive(s) {
      forall row, keys | row in s.keys && HasMarker(keys, RowMarker(row))
        ensures RootOf(s.merges, row.entity) in Weighed(CandidatesFor(s, row.entityType, keys))
      {
        var i :| 0 <= i < |s.keys| && s.keys[i] == row;
        LiveIsWeighed(s, row, keys);
      }
    }
    if EveryKeyFinds(s) {
      forall i | 0 <= i < |s.keys| ensures Live(s, s.keys[i]) {
        var row := s.keys[i];
        var k := IdentityKey(row.keyType, row.keyValue, row.strength);
        assert MarkerOf([k][0]) == RowMarker(row);
        assert row in s.keys && HasMarker([k], RowMarker(row));
        WeighedIsLive(s, row, k);
      }
    }
  }

  // ---- what a merge hides ---------------------------------------------------------------------------

  /** Two entities hold one key as keys of different types. */
  ghost predicate Clash(rows: seq<KeyRow>, a: EntityId, b: EntityId) {
    exists i :: 0 <= i < |rows| && rows[i].entity == a && HeldOtherwise(rows, b, rows[i])
  }

  ghost predicate HeldOtherwise(rows: seq<KeyRow>, e: EntityId, row: KeyRow) {
    exists j :: 0 <= j < |rows| && rows[j].entity == e && RowMarker(rows[j]) == RowMarker(row) && rows[j].entityType != row.entityType
  }

  /** An entity holds a key under one type only. */
  lemma OneTypePerKey(rows: seq<KeyRow>, e: EntityId, m: Marker, a: EntityType, b: EntityType)
    requires KeysUnique(rows) && HoldsAs(rows, e, a, m) && HoldsAs(rows, e, b, m)
    ensures a == b
  {
    var i :| 0 <= i < |rows| && rows[i].entity == e && RowMarker(rows[i]) == m && rows[i].entityType == a;
    var j :| 0 <= j < |rows| && rows[j].entity == e && RowMarker(rows[j]) == m && rows[j].entityType == b;
    assert i == j;
  }

  lemma HeldOtherwiseIsNotHeld(rows: seq<KeyRow>, e: EntityId, row: KeyRow)
    requires KeysUnique(rows) && HeldOtherwise(rows, e, row)
    ensures HasKey(rows, e, RowMarker(row)) && !HoldsAs(rows, e, row.entityType, RowMarker(row))
  {
  }

  lemma HeldAsSomething(rows: seq<KeyRow>, e: EntityId, m: Marker) returns (entityType: EntityType)
    requires HasKey(rows, e, m)
    ensures HoldsAs(rows, e, entityType, m)
  {
    var i :| 0 <= i < |rows| && rows[i].entity == e && RowMarker(rows[i]) == m;
    entityType := rows[i].entityType;
  }

  lemma HoldsAsGrows(few: seq<KeyRow>, more: seq<KeyRow>, e: EntityId, entityType: EntityType, m: Marker)
    requires few <= more && HoldsAs(few, e, entityType, m)
    ensures HoldsAs(more, e, entityType, m)
  {
    var i :| 0 <= i < |few| && few[i].entity == e && RowMarker(few[i]) == m && few[i].entityType == entityType;
    assert more[i] == few[i];
  }

  /** Copied rows change what nobody else holds, and what the survivor held it holds as before. */
  lemma CopyChangesOnly(rows: seq<KeyRow>, from: EntityId, to: EntityId, e: EntityId, entityType: EntityType, m: Marker)
    requires KeysUnique(rows) && (e != to || HasKey(rows, to, m))
    ensures HoldsAs(CopyKeys(rows, rows, from, to), e, entityType, m) <==> HoldsAs(rows, e, entityType, m)
  {
    hide CopyKeys;
    CopyKeysAre(rows, rows, from, to);
    var out := CopyKeys(rows, rows, from, to);
    if HoldsAs(rows, e, entityType, m) { HoldsAsGrows(rows, out, e, entityType, m); }
    if HoldsAs(out, e, entityType, m) {
      if e == to {
        var was := HeldAsSomething(rows, to, m);
        HoldsAsGrows(rows, out, to, was, m);
        OneTypePerKey(out, to, m, entityType, was);
      } else {
        var i :| 0 <= i < |out| && out[i].entity == e && RowMarker(out[i]) == m && out[i].entityType == entityType;
        assert i < |rows| && rows[i] == out[i];
      }
    }
  }

  /** A key the survivor did not hold it now holds as the absorbed entity held it. */
  lemma CopyPassesOn(rows: seq<KeyRow>, from: EntityId, to: EntityId, entityType: EntityType, m: Marker)
    requires KeysUnique(rows) && !HasKey(rows, to, m)
    ensures HoldsAs(CopyKeys(rows, rows, from, to), to, entityType, m) <==> HoldsAs(rows, from, entityType, m)
  {
    hide CopyKeys, KeysUnique;
    CopyKeysAre(rows, rows, from, to);
    var out := CopyKeys(rows, rows, from, to);
    if HoldsAs(out, to, entityType, m) { CopiedFrom(rows, out, from, to, entityType, m); }
    if HoldsAs(rows, from, entityType, m) {
      var i :| 0 <= i < |rows| && rows[i].entity == from && RowMarker(rows[i]) == m && rows[i].entityType == entityType;
      assert rows[i] in rows;
      var now := HeldAsSomething(out, to, m);
      CopiedFrom(rows, out, from, to, now, m);
      OneTypePerKey(rows, from, m, entityType, now);
    }
  }

  lemma CopiedFrom(rows: seq<KeyRow>, out: seq<KeyRow>, from: EntityId, to: EntityId, entityType: EntityType, m: Marker)
    requires rows <= out && forall i :: |rows| <= i < |out| ==> out[i].entity == to && out[i] in CopiesOf(rows, from, to)
    requires !HasKey(rows, to, m) && HoldsAs(out, to, entityType, m)
    ensures HoldsAs(rows, from, entityType, m)
  {
    var i :| 0 <= i < |out| && out[i].entity == to && RowMarker(out[i]) == m && out[i].entityType == entityType;
    assert out[..|rows|] == rows;
    var r :| r in rows && r.entity == from && out[i] == r.(entity := to);
    var j :| 0 <= j < |rows| && rows[j] == r;
  }

  /** Key by key: after a merge a key of the absorbed entity is found as the survivor held it, if it did. */
  lemma LiveAfterMerge(s: Store, merged: EntityId, surviving: EntityId, entityType: EntityType, confidence: nat, row: KeyRow)
    requires Inv(s) && row in s.keys && IsActive(s, merged) && IsActive(s, surviving) && merged != surviving
    ensures Live(MergeEntities(s, merged, surviving, entityType, confidence), row) <==>
      if RootOf(s.merges, row.entity) == merged && HasKey(s.keys, surviving, RowMarker(row))
      then HoldsAs(s.keys, surviving, row.entityType, RowMarker(row))
      else Live(s, row)
  {
    hide RootOf, CopyKeys, HoldsAs, Forest, LinksActive, KeysOwned, CandidatesFiled;
    var t := MergeEntities(s, merged, surviving, entityType, confidence);
    var root, m := RootOf(s.merges, row.entity), RowMarker(row);
    AppendMerge(s.merges, t.merges[|s.merges|], row.entity);
    var i :| 0 <= i < |s.keys| && s.keys[i] == row;
    assert HasKey(s.keys, root, RowMarker(s.keys[i]));
    if root == merged && !HasKey(s.keys, surviving, m) {
      CopyPassesOn(s.keys, merged, surviving, row.entityType, m);
    } else {
      CopyChangesOnly(s.keys, merged, surviving, RootOf(t.merges, row.entity), row.entityType, m);
    }
  }

  lemma OwnRowIsLive(s: Store, i: nat)
    requires Forest(s) && i < |s.keys| && IsActive(s, s.keys[i].entity)
    ensures Live(s, s.keys[i])
  {
    ActiveIsRoot(s, s.keys[i].entity);
  }

  /** A key both hold, under two types, was found before the merge and is not found after it. */
  lemma ClashHides(s: Store, merged: EntityId, surviving: EntityId, entityType: EntityType, confidence: nat) returns (i: nat)
    requires Inv(s) && IsActive(s, merged) && IsActive(s, surviving) && merged != surviving
    requires Clash(s.keys, merged, surviving)
    ensures i < |s.keys| && Live(s, s.keys[i])
    ensures !Live(MergeEntities(s, merged, surviving, entityType, confidence), s.keys[i])
  {
    hide RootOf, MergeEntities, LinksActive, KeysOwned, CandidatesFiled;
    i :| 0 <= i < |s.keys| && s.keys[i].entity == merged && HeldOtherwise(s.keys, surviving, s.keys[i]);
    var row := s.keys[i];
    OwnRowIsLive(s, i);
    ActiveIsRoot(s, merged);
    LiveAfterMerge(s, merged, surviving, entityType, confidence, row);
    HeldOtherwiseIsNotHeld(s.keys, surviving, row);
  }

  lemma NoClashKeepsLive(s: Store, merged: EntityId, surviving: EntityId, entityType: EntityType, confidence: nat, row: KeyRow)
    requires Inv(s) && IsActive(s, merged) && IsActive(s, surviving) && merged != surviving
    requires !Clash(s.keys, merged, surviving) && row in s.keys && Live(s, row)
    ensures Live(MergeEntities(s, merged, surviving, entityType, confidence), row)
  {
    hide RootOf, MergeEntities, Forest, LinksActive, KeysOwned, CandidatesFiled, KeyIndexComplete, KeysUnique;
    LiveAfterMerge(s, merged, surviving, entityType, confidence, row);
    if RootOf(s.merges, row.entity) == merged && HasKey(s.keys, surviving, RowMarker(row)) {
      var i :| 0 <= i < |s.keys| && s.keys[i].entity == merged && RowMarker(s.keys[i]) == RowMarker(row)
               && s.keys[i].entityType == row.entityType;
      var j :| 0 <= j < |s.keys| && s.keys[j].entity == surviving && RowMarker(s.keys[j]) == RowMarker(row);
      assert !HeldOtherwise(s.keys, surviving, s.keys[i]);
    }
  }

  ghost predicate KeepsLive(s: Store, t: Store) {
    forall row :: row in s.keys && Live(s, row) ==> Live(t, row)
  }

  /** A merge hides no key exactly when the two entities hold no key under different types. */
  lemma MergeHidesNothingIff(s: Store, merged: EntityId, surviving: EntityId, entityType: EntityType, confidence: nat)
    requires Inv(s) && IsActive(s, merged) && IsActive(s, surviving) && merged != surviving
    ensures KeepsLive(s, MergeEntities(s, merged, surviving, entityType, confidence)) <==> !Clash(s.keys, merged, surviving)
  {
    hide Inv, Live, MergeEntities, Clash, IsActive;
    if Clash(s.keys, merged, surviving) {
      var i := ClashHides(s, merged, surviving, entityType, confidence);
      assert s.keys[i] in s.keys;
    } else {
      forall row | row in s.keys && Live(s, row) ensures Live(MergeEntities(s, merged, surviving, entityType, confidence), row) {
        NoClashKeepsLive(s, merged, surviving, entityType, confidence, row);
      }
    }
  }

  // ---- what each operation keeps -----------------------------------------------------------------------

  /** Rows added to active entities hide nothing. */
  lemma AddedRowsKeepAllLive(s: Store, t: Store)
    requires AllLive(s) && Forest(t) && s.merges == t.merges && s.keys <= t.keys
    requires forall i :: |s.keys| <= i < |t.keys| ==> IsActive(t, t.keys[i].entity)
    ensures AllLive(t)
  {
    hide Forest, RootOf, HoldsAs;
    forall i | 0 <= i < |t.keys| ensures Live(t, t.keys[i]) {
      var row := t.keys[i];
      if i < |s.keys| {
        assert s.keys[i] == row;
        HoldsAsGrows(s.keys, t.keys, RootOf(s.merges, row.entity), row.entityType, RowMarker(row));
      } else {
        OwnRowIsLive(t, i);
      }
    }
  }

  lemma AppliedKeys(s: Store, r: Subject, d: Option<Decision>)
    requires d.Some? && d.value.kind != New ==> d.value.best.Some?
    ensures var a := ApplyDecision(s, r, d);
      && a.store.merges == s.merges
      && a.store.keys == if d.None? then s.keys else WithKeys(s.keys, a.entity, r.entityType, r.record, r.keys)
  {
    hide WithKeys;
  }

  lemma ResolveKeepsAllLive(s: Store, r: Subject)
    requires Inv(s) && AllLive(s) && r.newId !in s.entities && (r.role == Self || LinkKey(r.record, Self) in s.links)
    ensures AllLive(Resolve(s, r).store)
  {
    hide ApplyDecision, DecisionFor, WithKeys, AllLive, KeyIndexComplete, LinksActive, KeysOwned, CandidatesFiled, Forest;
    var a := Resolve(s, r);
    ResolveKeeps(s, r);
    AppliedKeys(s, r, DecisionFor(s, r));
    WithKeysAre(s.keys, a.entity, r.entityType, r.record, r.keys);
    AddedRowsKeepAllLive(s, a.store);
  }

  lemma ResolveRecordKeepsAllLive(s: Store, self: Subject, employer: Option<Subject>)
    requires Inv(s) && AllLive(s) && CanResolve(s, self, employer)
    ensures AllLive(ResolveRecord(s, self, employer))
  {
    hide Resolve, Inv, AllLive;
    ResolveKeepsAllLive(s, self);
    ResolveKeeps(s, self);
    ResolveEntities(s, self);
    if employer.Some? { ResolveKeepsAllLive(Resolve(s, self).store, employer.value); }
  }

  /** The operation merges two entities that hold one key under different types. */
  ghost predicate Clashes(s: Store, op: Op) {
    && op.AcceptOp? && AcceptanceOf(s, op.id).Merging?
    && Clash(s.keys, AcceptanceOf(s, op.id).merged, AcceptanceOf(s, op.id).surviving)
  }

  lemma SameRowsSameLive(s: Store, t: Store)
    requires s.keys == t.keys && s.merges == t.merges
    ensures AllLive(s) <==> AllLive(t)
  {
    assert forall row :: Live(s, row) <==> Live(t, row);
  }

  lemma MergeKeepsAllLiveIff(s: Store, merged: EntityId, surviving: EntityId, entityType: EntityType, confidence: nat)
    requires Inv(s) && AllLive(s) && IsActive(s, merged) && IsActive(s, surviving) && merged != surviving
    ensures AllLive(MergeEntities(s, merged, surviving, entityType, confidence)) <==> !Clash(s.keys, merged, surviving)
  {
    hide Inv, Live, Clash, CopyKeys;
    var t := MergeEntities(s, merged, surviving, entityType, confidence);
    CopyKeysGrows(s.keys, s.keys, merged, surviving);
    if Clash(s.keys, merged, surviving) {
      var i := ClashHides(s, merged, surviving, entityType, confidence);
      assert t.keys[i] == s.keys[i];
    } else {
      forall i | 0 <= i < |t.keys| ensures Live(t, t.keys[i]) {
        if i < |s.keys| {
          assert t.keys[i] == s.keys[i];
          NoClashKeepsLive(s, merged, surviving, entityType, confidence, s.keys[i]);
        } else {
          CopiesAreLive(s, merged, surviving, entityType, confidence, i);
        }
      }
    }
  }

  lemma CopiesAreLive(s: Store, merged: EntityId, surviving: EntityId, entityType: EntityType, confidence: nat, i: nat)
    requires Inv(s) && IsActive(s, merged) && IsActive(s, surviving) && merged != surviving
    requires |s.keys| <= i < |MergeEntities(s, merged, surviving, entityType, confidence).keys|
    ensures var t := MergeEntities(s, merged, surviving, entityType, confidence); Live(t, t.keys[i])
  {
    hide Forest, Live, CopyKeys, Advances, KeyIndexComplete, LinksActive, KeysOwned, CandidatesFiled;
    MergeKeepsForest(s, merged, surviving, entityType, confidence);
    CopyKeysAre(s.keys, s.keys, merged, surviving);
    OwnRowIsLive(MergeEntities(s, merged, surviving, entityType, confidence), i);
  }

  lemma StepKeepsAllLiveIff(s: Store, op: Op)
    requires Inv(s) && AllLive(s)
    ensures AllLive(Step(s, op)) <==> !Clashes(s, op)
  {
    hide Inv, AllLive, ResolveRecord, MergeEntities, Clash, AcceptanceOf;
    match op
    case ResolveOp(self, employer) =>
      if CanResolve(s, self, employer) { ResolveRecordKeepsAllLive(s, self, employer); }
    case AcceptOp(id) =>
      AcceptIs(s, id);
      match AcceptanceOf(s, id) {
        case Merging(merged, surviving) => AcceptedMergeKeepsAllLiveIff(s, id);
        case AlreadyMerged(_) => SameRowsSameLive(s, Accept(s, id));
        case _ =>
      }
    case RejectOp(id) => SameRowsSameLive(s, Reject(s, id));
  }

  lemma AcceptedMergeKeepsAllLiveIff(s: Store, id: CandidateId)
    requires Inv(s) && AllLive(s) && AcceptanceOf(s, id).Merging?
    ensures AllLive(Accept(s, id)) <==> !Clash(s.keys, AcceptanceOf(s, id).merged, AcceptanceOf(s, id).surviving)
  {
    hide AllLive, MergeEntities, Clash, AcceptanceOf, Accept, LinksActive, KeysOwned, KeysUnique, KeyIndexComplete, CandidatesFiled, Forest;
    AcceptIs(s, id);
    var a, c := AcceptanceOf(s, id), s.candidates[id];
    MergingArgumentsAreActive(s, id);
    MergeKeepsAllLiveIff(s, a.merged, a.surviving, c.entityType, c.confidence);
    SameRowsSameLive(MergeEntities(s, a.merged, a.surviving, c.entityType, c.confidence), Accept(s, id));
  }

  // ---- whole runs -------------------------------------------------------------------------------------------

  /** No accept in this run merges two entities that hold one key under different types. */
  ghost predicate ClashFree(s: Store, ops: seq<Op>)
    decreases |ops|
  {
    ops != [] ==> !Clashes(s, ops[0]) && ClashFree(Step(s, ops[0]), ops[1..])
  }

  lemma PrefixRun(s: Store, ops: seq<Op>, n: nat)
    requires 0 < n <= |ops|
    ensures Run(s, ops[..n]) == Run(Step(s, ops[0]), ops[1..][..n - 1])
  {
    hide Step;
    assert ops[..n][1..] == ops[1..][..n - 1];
  }

  lemma {:induction false} AllLiveThroughoutIff(s: Store, ops: seq<Op>)
    requires Inv(s) && AllLive(s)
    ensures (forall n: nat :: n <= |ops| ==> AllLive(Run(s, ops[..n]))) <==> ClashFree(s, ops)
    decreases |ops|
  {
    hide Inv, AllLive, Step, Clashes;
    if ops == [] {
      assert ops[..0] == [];
    } else {
      var t := Step(s, ops[0]);
      StepKeeps(s, ops[0]);
      StepKeepsAllLiveIff(s, ops[0]);
      PrefixRun(s, ops, 1);
      assert ops[1..][..0] == [];
      if AllLive(t) {
        AllLiveThroughoutIff(t, ops[1..]);
        forall n: nat | n <= |ops| ensures AllLive(Run(s, ops[..n])) <==> n == 0 || AllLive(Run(t, ops[1..][..n - 1])) {
          if n == 0 { assert ops[..n] == []; } else { PrefixRun(s, ops, n); }
        }
        forall n: nat | n <= |ops[1..]| ensures AllLive(Run(t, ops[1..][..n])) <==> AllLive(Run(s, ops[..n + 1])) {
          PrefixRun(s, ops, n + 1);
        }
      }
    }
  }

  lemma NothingToHide(order: RowOrder)
    ensures Inv(EmptyStore(order)) && AllLive(EmptyStore(order))
  {
  }

  /**
   * From empty tables, every key ever recorded keeps finding what its owner has become, after every
   * step of the run, exactly when no accept merges two entities that hold one key under different types.
   */
  lemma KeyIndexNeverForgetsIff(order: RowOrder, ops: seq<Op>)
    ensures (forall n: nat :: n <= |ops| ==> EveryKeyFinds(Run(EmptyStore(order), ops[..n]))) <==> ClashFree(EmptyStore(order), ops)
  {
    hide EveryKeyFinds, AllLive, ClashFree, Run;
    var s := EmptyStore(order);
    NothingToHide(order);
    AllLiveThroughoutIff(s, ops);
    forall n: nat | n <= |ops| ensures EveryKeyFinds(Run(s, ops[..n])) <==> AllLive(Run(s, ops[..n])) {
      RunKeeps(s, ops[..n]);
      EveryKeyFindsIff(Run(s, ops[..n]));
    }
  }

  /** In such a run a key recorded at any time brings its owner's live entity into every later decision. */
  lemma KeyIndexNeverForgets(order: RowOrder, before: seq<Op>, after: seq<Op>, row: KeyRow, keys: seq<IdentityKey>)
    requires ClashFree(EmptyStore(order), before + after)
    requires row in Run(EmptyStore(order), before).keys && HasMarker(keys, RowMarker(row))
    ensures var t := Run(EmptyStore(order), before + after);
      && IsActive(t, RootOf(t.merges, row.entity))
      && RootOf(t.merges, row.entity) in Weighed(CandidatesFor(t, row.entityType, keys))
  {
    hide ClashFree, Run, CandidatesFor, Weighed, RootOf, LinksActive, KeyIndexComplete, KeysUnique, CandidatesFiled;
    var s, t, ops := Run(EmptyStore(order), before), Run(EmptyStore(order), before + after), before + after;
    RunKeeps(EmptyStore(order), before);
    RunKeeps(s, after);
    RunConcat(EmptyStore(order), before, after);
    KeyIndexNeverForgetsIff(order, ops);
    assert ops[..|ops|] == ops;
    var i :| 0 <= i < |s.keys| && s.keys[i] == row;
    assert t.keys[i] == row;
    RootIsActive(t, row.entity);
  }

  // ---- runs that never clash ----------------------------------------------------------------------------------

  /** No candidate filed for an employer is merged in this run. */
  ghost predicate SelfFiledOnly(s: Store, ops: seq<Op>)
    decreases |ops|
  {
    ops != [] ==>
      && (ops[0].AcceptOp? && AcceptanceOf(s, ops[0].id).Merging? ==> SelfFiled(s, ops[0].id))
      && SelfFiledOnly(Step(s, ops[0]), ops[1..])
  }

  lemma SelfFiledIsNoClash(s: Store, id: CandidateId)
    requires Inv(s) && Typed(s) && AcceptanceOf(s, id).Merging? && SelfFiled(s, id)
    ensures !Clash(s.keys, AcceptanceOf(s, id).merged, AcceptanceOf(s, id).surviving)
  {
    hide AcceptanceOf;
    MergingArgumentsAreActive(s, id);
    MergingTypes(s, id);
  }

  lemma StepKeepsTypes(s: Store, op: Op)
    requires Inv(s) && Typed(s)
    requires op.AcceptOp? && AcceptanceOf(s, op.id).Merging? ==> SelfFiled(s, op.id)
    ensures Typed(Step(s, op))
  {
    hide Inv, Typed, ResolveRecord, AcceptanceOf, Accept, SelfFiled;
    match op
    case ResolveOp(self, employer) =>
      if CanResolve(s, self, employer) { ResolveRecordKeeps(s, self, employer); }
    case AcceptOp(id) => AcceptKeepsTypesIff(s, id);
    case RejectOp(id) =>
      if id in s.candidates && s.candidates[id].status == Open {
        CloseKeepsAllTypes(s, id);
      }
  }

  lemma CloseKeepsAllTypes(s: Store, id: CandidateId)
    requires Inv(s) && Typed(s) && id in s.candidates
    ensures Typed(CloseCandidate(s, id, Rejected))
  {
    CloseCandidateKeeps(s, id, Rejected);
  }

  /** Runs that merge only what records were filed under never clash, and keep every row's type. */
  lemma {:induction false} SelfFiledRunsAreClashFree(s: Store, ops: seq<Op>)
    requires Inv(s) && Typed(s) && SelfFiledOnly(s, ops)
    ensures ClashFree(s, ops) && Typed(Run(s, ops))
    decreases |ops|
  {
    hide Inv, Typed, Step, AcceptanceOf, SelfFiled, Clash;
    if ops != [] {
      StepKeeps(s, ops[0]);
      StepKeepsTypes(s, ops[0]);
      if ops[0].AcceptOp? && AcceptanceOf(s, ops[0].id).Merging? { SelfFiledIsNoClash(s, ops[0].id); }
      SelfFiledRunsAreClashFree(Step(s, ops[0]), ops[1..]);
    }
  }

  // ---- keys of the owner's type ---------------------------------------------------------------------------------

  /** Active entities hold keys of their own type only: what a lookup under a type finds has that type. */
  ghost predicate TypedActiveKeys(s: Store) {
    forall i :: 0 <= i < |s.keys| && IsActive(s, s.keys[i].entity) ==>
      s.keys[i].entityType == s.entities[s.keys[i].entity].entityType
  }

  lemma TypedStoresHaveTypedActiveKeys(s: Store)
    requires Typed(s)
    ensures TypedActiveKeys(s)
  {
  }

  lemma DecisionReachesItsType(s: Store, entityType: EntityType, keys: seq<IdentityKey>)
    requires TypedActiveKeys(s) && CandidatesFor(s, entityType, keys).best.Some?
    ensures var e := CandidatesFor(s, entityType, keys).best.value.entityId; IsActive(s, e) && s.entities[e].entityType == entityType
  {
    hide CandidatesFor;
    var row := DecisionReachesRow(s, entityType, keys);
    var i :| 0 <= i < |s.keys| && s.keys[i] == row;
  }

  lemma AppliedEntity(s: Store, r: Subject, d: Option<Decision>)
    requires d.Some? && d.value.kind != New ==> d.value.best.Some?
    ensures var a := ApplyDecision(s, r, d);
      if a.kind == Link then d.Some? && d.value.kind == Link && a.entity == d.value.best.value.entityId && a.store.entities == s.entities
      else a.entity == r.newId && a.store.entities == s.entities[r.newId := Entity(r.entityType, Active, r.record)]
  {
    hide WithKeys;
  }

  /** Resolving a subject links it to an entity of its own type, and keeps all keys so. */
  lemma ResolveKeepsActiveTypes(s: Store, r: Subject)
    requires Inv(s) && TypedActiveKeys(s) && r.newId !in s.entities
    ensures var a := Resolve(s, r);
      && TypedActiveKeys(a.store) && a.entity in a.store.entities && a.store.entities[a.entity].entityType == r.entityType
  {
    hide ApplyDecision, DecisionFor, WithKeys, KeyIndexComplete, LinksActive, CandidatesFiled, Forest;
    var a, d := Resolve(s, r), DecisionFor(s, r);
    AppliedKeys(s, r, d);
    AppliedEntity(s, r, d);
    WithKeysAre(s.keys, a.entity, r.entityType, r.record, r.keys);
    if a.kind == Link { LinkReachesItsType(s, r); }
    assert a.store.entities[a.entity].entityType == r.entityType;
    forall i | 0 <= i < |a.store.keys| && IsActive(a.store, a.store.keys[i].entity)
      ensures a.store.keys[i].entityType == a.store.entities[a.store.keys[i].entity].entityType
    {
      if i < |s.keys| { assert a.store.keys[i] == s.keys[i]; }
    }
  }

  lemma LinkReachesItsType(s: Store, r: Subject)
    requires TypedActiveKeys(s) && DecisionFor(s, r).Some? && DecisionFor(s, r).value.kind == Link
    ensures var e := DecisionFor(s, r).value.best.value.entityId; e in s.entities && s.entities[e].entityType == r.entityType
  {
    DecisionReachesItsType(s, r.entityType, r.keys);
  }

  ghost predicate AllHeldBy(rows: seq<KeyRow>, a: EntityId, b: EntityId) {
    forall i :: 0 <= i < |rows| && rows[i].entity == a ==> HasKey(rows, b, RowMarker(rows[i]))
  }

  /** A merge keeps that exactly when the two have one type or the survivor holds all the other's keys already. */
  lemma MergeKeepsActiveTypesIff(s: Store, merged: EntityId, surviving: EntityId, entityType: EntityType, confidence: nat)
    requires Inv(s) && TypedActiveKeys(s) && IsActive(s, merged) && IsActive(s, surviving) && merged != surviving
    ensures TypedActiveKeys(MergeEntities(s, merged, surviving, entityType, confidence)) <==>
      s.entities[merged].entityType == s.entities[surviving].entityType || AllHeldBy(s.keys, merged, surviving)
  {
    hide Forest, LinksActive, KeyIndexComplete, CandidatesFiled, CopyKeys, KeysUnique;
    var t := MergeEntities(s, merged, surviving, entityType, confidence);
    if s.entities[merged].entityType != s.entities[surviving].entityType && !AllHeldBy(s.keys, merged, surviving) {
      var i :| 0 <= i < |s.keys| && s.keys[i].entity == merged && !HasKey(s.keys, surviving, RowMarker(s.keys[i]));
      CopyPassesOn(s.keys, merged, surviving, s.keys[i].entityType, RowMarker(s.keys[i]));
      var j :| 0 <= j < |t.keys| && t.keys[j].entity == surviving && t.keys[j].entityType == s.keys[i].entityType;
      assert IsActive(t, t.keys[j].entity);
    } else {
      CopyKeysGrows(s.keys, s.keys, merged, surviving);
      forall i | 0 <= i < |t.keys| && IsActive(t, t.keys[i].entity)
        ensures t.keys[i].entityType == t.entities[t.keys[i].entity].entityType
      {
        if i < |s.keys| {
          assert t.keys[i] == s.keys[i];
        } else {
          var j := CopiedRow(s.keys, merged, surviving, i);
          assert IsActive(s, s.keys[j].entity);
        }
      }
    }
  }

  /** Each copied row is some row of the absorbed entity whose key the survivor did not hold. */
  lemma CopiedRow(rows: seq<KeyRow>, from: EntityId, to: EntityId, i: nat) returns (j: nat)
    requires KeysUnique(rows) && |rows| <= i < |CopyKeys(rows, rows, from, to)|
    ensures j < |rows| && rows[j].entity == from && CopyKeys(rows, rows, from, to)[i] == rows[j].(entity := to)
    ensures !HasKey(rows, to, RowMarker(rows[j]))
  {
    hide CopyKeys;
    CopyKeysAre(rows, rows, from, to);
    var out := CopyKeys(rows, rows, from, to);
    assert out[i] in CopiesOf(rows, from, to);
    var r :| r in rows && r.entity == from && out[i] == r.(entity := to);
    j :| 0 <= j < |rows| && rows[j] == r;
    assert forall k :: 0 <= k < |rows| ==> out[k] == rows[k];
  }
}
